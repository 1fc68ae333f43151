/** What concurrent requests do to payloads and to the evaluation gate. Both survive exactly those
    interleavings in which no creation overwrites another release; creators of one directory that
    do not overlap never do, and creators that do overlap have a schedule in which they do. */
module ReleaseOverlaps {
  import opened Faults
  import opened Artifacts
  import opened StateRepo
  import opened ReleaseRaces
  import L = ReleaseLog

  // ---------------------------------------------------------------- history

  /** Besides the files: each release as first committed, the releases a passing verdict has been
      read for, and those a deploy has put into current.yaml. */
  ghost function Recorded(log: L.Log, w: World, a: Action, digests: Digests): L.Log {
    if a.Begin? || a.thread !in w.threads then log
    else match w.threads[a.thread]
      case Loading(path, job) =>
        if a.fate == Refused || path !in w.files then log
        else log.(passed := if job == Approve(true) then log.passed + {path} else log.passed)
      case Putting(path, content, sha, next) =>
        if Accepts(w.files, path, sha, digests.blob) && a.fate != Refused
        then L.WithWrite(Deploying(log, next), path, content)
        else log
      case _ => log
  }

  ghost function Deploying(log: L.Log, next: Next): L.Log {
    if next.ThenApply? then log.(deployed := log.deployed + {ReleaseFile(next.dir, next.version)}) else log
  }

  ghost function Chronicle(actions: seq<Action>, digests: Digests): L.Log {
    if actions == [] then L.EMPTY_LOG
    else
      var earlier := actions[..|actions| - 1];
      Recorded(Chronicle(earlier, digests), After(earlier, digests), actions[|actions| - 1], digests)
  }

  lemma {:induction false} ChronicleHasTheFiles(actions: seq<Action>, digests: Digests)
    ensures Chronicle(actions, digests).files == After(actions, digests).files
  {
    if actions != [] { ChronicleHasTheFiles(actions[..|actions| - 1], digests); }
  }

  // ---------------------------------------------------------------- what threads are about to do

  ghost predicate IsCreation(path: Path, content: Artifact) {
    path.ReleaseFile? && content.metadata.status == PendingEval
  }

  ghost predicate Intends(log: L.Log, path: Path, content: Artifact, next: Next, digests: Digests) {
    if IsCreation(path, content) then
      && L.IsBirth(log.files, path, content, digests.checksum)
      && (next == ThenStop || (next == ThenApprove(path.dir, path.version) && !L.RequiresEval(content)))
    else
      && L.IsRewrite(Deploying(log, next), path, content)
      && (|| next == ThenStop
          || (path.CurrentFile? && next == ThenApply(path.dir, content.metadata.version))
          || (path.ReleaseFile? && next == ThenActivate(path.dir, content)
              && content.metadata.status == Active && content.metadata.version == path.version))
  }

  ghost predicate ThreadIsSound(log: L.Log, thread: Thread, digests: Digests) {
    match thread
    case Listing(_, built) => built.metadata.status == PendingEval
    case Loading(path, job) =>
      && (path.CurrentFile? <==> job.Bury?)
      && (job == Approve(false) ==> path in log.files && !L.RequiresEval(log.files[path]))
    case Looking(path, content, next) => Intends(log, path, content, next, digests)
    case Putting(path, content, _, next) => Intends(log, path, content, next, digests)
    case Done => true
  }

  ghost predicate Sound(log: L.Log, w: World, digests: Digests) {
    && log.files == w.files && L.Sound(log, digests.checksum)
    && (forall t :: t in w.threads ==> ThreadIsSound(log, w.threads[t], digests))
  }

  /** Later logs keep what threads rely on: files stay, payloads stay, records grow. */
  ghost predicate Extends(log: L.Log, log': L.Log) {
    && (forall p :: p in log.files && p.ReleaseFile? ==> p in log'.files && SamePayload(log'.files[p], log.files[p]))
    && log.passed <= log'.passed && log.deployed <= log'.deployed
  }

  lemma IntentStays(log: L.Log, log': L.Log, path: Path, content: Artifact, next: Next, digests: Digests)
    requires Extends(log, log') && Intends(log, path, content, next, digests)
    ensures Intends(log', path, content, next, digests)
  {
  }

  lemma ThreadStaysSound(log: L.Log, log': L.Log, thread: Thread, digests: Digests)
    requires Extends(log, log') && ThreadIsSound(log, thread, digests)
    ensures ThreadIsSound(log', thread, digests)
  {
    if thread.Looking? || thread.Putting? {
      IntentStays(log, log', thread.path, thread.content, thread.next, digests);
    }
  }

  // ---------------------------------------------------------------- one step

  /** The step commits a creation over a release with another payload. */
  ghost predicate Overwrites(w: World, a: Action, digests: Digests) {
    && a.Step? && a.fate != Refused && a.thread in w.threads && w.threads[a.thread].Putting?
    && var p := w.threads[a.thread];
       IsCreation(p.path, p.content) && Accepts(w.files, p.path, p.sha, digests.blob)
       && p.path in w.files && !SamePayload(p.content, w.files[p.path])
  }

  ghost predicate FromBuild(a: Action) { a.Begin? ==> L.FromBuild(a.request) }

  /** A step of one thread, seen from all: the log stays sound and only grows, and the thread that
      moved is sound where it got to. */
  lemma MoveKeepsSound(log: L.Log, w: World, log': L.Log, w': World, t: nat, thread: Thread, digests: Digests)
    requires Sound(log, w, digests) && L.Sound(log', digests.checksum) && Extends(log, log')
    requires w' == World(log'.files, w.threads[t := thread]) && ThreadIsSound(log', thread, digests)
    ensures Sound(log', w', digests)
  {
    forall u | u in w'.threads ensures ThreadIsSound(log', w'.threads[u], digests) {
      if u != t { ThreadStaysSound(log, log', w.threads[u], digests); }
    }
  }

  lemma BeginKeepsSound(log: L.Log, w: World, a: Action, digests: Digests)
    requires Sound(log, w, digests) && a.Begin? && FromBuild(a)
    ensures Sound(Recorded(log, w, a, digests), Act(w, a, digests), digests)
  {
    if !(a.thread in w.threads && w.threads[a.thread] != Done) {
      MoveKeepsSound(log, w, log, Act(w, a, digests), a.thread, Start(a.request), digests);
    }
  }

  lemma ListingIntends(log: L.Log, dir: string, built: Artifact, listed: bool, digests: Digests)
    requires L.Sound(log, digests.checksum) && built.metadata.status == PendingEval
    ensures var version := L.NextVersion(log.files, dir, listed);
            var content := L.Numbered(built, version, digests.checksum);
            L.IsBirth(log.files, ReleaseFile(dir, version), content, digests.checksum)
  {
    var version := L.NextVersion(log.files, dir, listed);
    NumberedIsSealed(built, version, digests.checksum);
    if version > 1 { assert ReleaseFile(dir, version - 1) in log.files; }
  }

  lemma NumberedIsSealed(built: Artifact, version: int, checksum: Digest)
    ensures var m := L.Numbered(built, version, checksum).metadata;
            && m.version == version && m.previous == version - 1 && m.status == built.metadata.status
            && m.checksum == Checksum(L.Numbered(built, version, checksum), checksum)
  {
  }

  lemma ListingKeepsSound(log: L.Log, w: World, a: Action, digests: Digests)
    requires Sound(log, w, digests) && a.Step? && a.thread in w.threads && w.threads[a.thread].Listing?
    ensures Sound(Recorded(log, w, a, digests), Act(w, a, digests), digests)
  {
    var Listing(dir, built) := w.threads[a.thread];
    ListingIntends(log, dir, built, a.fate != Refused, digests);
    MoveKeepsSound(log, w, log, Act(w, a, digests), a.thread,
                   Call(w.files, w.threads[a.thread], a.fate, digests).1, digests);
  }

  /** What a thread does after a write it could not make. */
  lemma AfterFailedWrite(log: L.Log, path: Path, content: Artifact, next: Next, digests: Digests)
    requires Intends(log, path, content, next, digests)
    ensures ThreadIsSound(log, AfterWrite(next, false), digests)
  {
  }

  lemma LookingKeepsSound(log: L.Log, w: World, a: Action, digests: Digests)
    requires Sound(log, w, digests) && a.Step? && a.thread in w.threads && w.threads[a.thread].Looking?
    ensures Sound(Recorded(log, w, a, digests), Act(w, a, digests), digests)
  {
    var Looking(path, content, next) := w.threads[a.thread];
    AfterFailedWrite(log, path, content, next, digests);
    MoveKeepsSound(log, w, log, Act(w, a, digests), a.thread,
                   Call(w.files, w.threads[a.thread], a.fate, digests).1, digests);
  }

  lemma LoadingKeepsSound(log: L.Log, w: World, a: Action, digests: Digests)
    requires Sound(log, w, digests) && a.Step? && a.thread in w.threads && w.threads[a.thread].Loading?
    ensures Sound(Recorded(log, w, a, digests), Act(w, a, digests), digests)
  {
    var Loading(path, job) := w.threads[a.thread];
    var log' := Recorded(log, w, a, digests);
    L.RecordsKeepSound(log, log', digests.checksum);
    if a.fate != Refused && path in w.files {
      AfterLoadIsSound(log', path, w.files[path], job, digests);
    }
    MoveKeepsSound(log, w, log', Act(w, a, digests), a.thread,
                   Call(w.files, w.threads[a.thread], a.fate, digests).1, digests);
  }

  lemma AfterLoadIsSound(log: L.Log, path: Path, content: Artifact, job: Job, digests: Digests)
    requires L.Sound(log, digests.checksum) && path in log.files && content == log.files[path]
    requires (path.CurrentFile? <==> job.Bury?) && (job == Approve(false) ==> !L.RequiresEval(content))
    requires job == Approve(true) ==> path in log.passed
    ensures ThreadIsSound(log, AfterLoad(path, content, job), digests)
  {
    if path.ReleaseFile? {
      assert L.ReleaseIsSound(log, path.dir, path.version, digests.checksum);
      AfterReleaseLoad(log, path, content, job, digests);
    } else {
      assert L.CurrentIsSound(log, path.dir);
      AfterCurrentLoad(log, path, content, digests);
    }
  }

  lemma AfterReleaseLoad(log: L.Log, path: Path, content: Artifact, job: Job, digests: Digests)
    requires path.ReleaseFile? && path in log.files && content == log.files[path] && !job.Bury?
    requires L.ReleaseIsSound(log, path.dir, path.version, digests.checksum)
    requires (job == Approve(false) ==> !L.RequiresEval(content)) && (job == Approve(true) ==> path in log.passed)
    ensures ThreadIsSound(log, AfterLoad(path, content, job), digests)
  {
  }

  lemma AfterCurrentLoad(log: L.Log, path: Path, content: Artifact, digests: Digests)
    requires path.CurrentFile? && path in log.files && content == log.files[path] && L.CurrentIsSound(log, path.dir)
    ensures ThreadIsSound(log, AfterLoad(path, content, Bury), digests)
  {
  }

  /** What an accepted PUT makes of the log and of the world. */
  lemma AcceptedWrite(log: L.Log, w: World, a: Action, digests: Digests)
    requires log.files == w.files && a.Step? && a.fate != Refused && a.thread in w.threads
    requires w.threads[a.thread].Putting?
    requires Accepts(w.files, w.threads[a.thread].path, w.threads[a.thread].sha, digests.blob)
    ensures var p := w.threads[a.thread];
            var log' := L.WithWrite(Deploying(log, p.next), p.path, p.content);
            && Recorded(log, w, a, digests) == log'
            && Act(w, a, digests) ==
                 World(log'.files, w.threads[a.thread := AfterWrite(p.next, a.fate == Acknowledged)])
  {
  }

  /** A PUT that is not accepted changes nothing but the thread. */
  lemma RejectedWrite(log: L.Log, w: World, a: Action, digests: Digests)
    requires a.Step? && a.thread in w.threads && w.threads[a.thread].Putting?
    requires a.fate == Refused
             || !Accepts(w.files, w.threads[a.thread].path, w.threads[a.thread].sha, digests.blob)
    ensures Recorded(log, w, a, digests) == log
    ensures Act(w, a, digests) == World(w.files, w.threads[a.thread := AfterWrite(w.threads[a.thread].next, false)])
  {
  }

  lemma AcceptedWriteKeepsSound(log: L.Log, w: World, a: Action, digests: Digests)
    requires Sound(log, w, digests) && a.Step? && a.thread in w.threads && w.threads[a.thread].Putting?
    requires !Overwrites(w, a, digests) && a.fate != Refused
    requires Accepts(w.files, w.threads[a.thread].path, w.threads[a.thread].sha, digests.blob)
    ensures Sound(Recorded(log, w, a, digests), Act(w, a, digests), digests)
  {
    var Putting(path, content, sha, next) := w.threads[a.thread];
    var log' := L.WithWrite(Deploying(log, next), path, content);
    AcceptedWrite(log, w, a, digests);
    WriteKeepsLogSound(log, path, content, next, digests);
    AfterWriteIsSound(log, path, content, next, a.fate == Acknowledged, digests);
    MoveKeepsSound(log, w, log', Act(w, a, digests), a.thread, AfterWrite(next, a.fate == Acknowledged), digests);
  }

  lemma OverwritingIsUnsound(log: L.Log, w: World, a: Action, digests: Digests)
    requires Sound(log, w, digests) && Overwrites(w, a, digests)
    ensures !L.Sound(Recorded(log, w, a, digests), digests.checksum)
  {
    var p := w.threads[a.thread];
    assert Intends(log, p.path, p.content, p.next, digests);
    AcceptedWrite(log, w, a, digests);
    L.BirthOverExistingIsSoundExactlyWhen(log, p.path, p.content, digests.checksum);
  }

  lemma PuttingKeepsSoundExactlyWhen(log: L.Log, w: World, a: Action, digests: Digests)
    requires Sound(log, w, digests) && a.Step? && a.thread in w.threads && w.threads[a.thread].Putting?
    ensures L.Sound(Recorded(log, w, a, digests), digests.checksum) <==> !Overwrites(w, a, digests)
    ensures !Overwrites(w, a, digests) ==> Sound(Recorded(log, w, a, digests), Act(w, a, digests), digests)
  {
    if Overwrites(w, a, digests) {
      OverwritingIsUnsound(log, w, a, digests);
    } else if Accepts(w.files, w.threads[a.thread].path, w.threads[a.thread].sha, digests.blob) && a.fate != Refused {
      AcceptedWriteKeepsSound(log, w, a, digests);
    } else {
      RejectedWriteKeepsSound(log, w, a, digests);
    }
  }

  lemma RejectedWriteKeepsSound(log: L.Log, w: World, a: Action, digests: Digests)
    requires Sound(log, w, digests) && a.Step? && a.thread in w.threads && w.threads[a.thread].Putting?
    requires a.fate == Refused
             || !Accepts(w.files, w.threads[a.thread].path, w.threads[a.thread].sha, digests.blob)
    ensures Sound(Recorded(log, w, a, digests), Act(w, a, digests), digests)
  {
    var p := w.threads[a.thread];
    RejectedWrite(log, w, a, digests);
    AfterFailedWrite(log, p.path, p.content, p.next, digests);
    MoveKeepsSound(log, w, log, Act(w, a, digests), a.thread, AfterWrite(p.next, false), digests);
  }

  lemma WriteKeepsLogSound(log: L.Log, path: Path, content: Artifact, next: Next, digests: Digests)
    requires L.Sound(log, digests.checksum) && Intends(log, path, content, next, digests)
    requires IsCreation(path, content) && path in log.files ==> SamePayload(content, log.files[path])
    ensures var log' := L.WithWrite(Deploying(log, next), path, content);
            L.Sound(log', digests.checksum) && Extends(log, log')
  {
    WriteExtends(log, path, content, next, digests);
    if !IsCreation(path, content) {
      L.RecordsKeepSound(log, Deploying(log, next), digests.checksum);
      L.RewriteKeepsSound(Deploying(log, next), path, content, digests.checksum);
    } else if path in log.files {
      L.BirthOverExistingIsSoundExactlyWhen(log, path, content, digests.checksum);
    } else {
      L.BirthKeepsSound(log, path, content, digests.checksum);
    }
  }

  lemma WriteExtends(log: L.Log, path: Path, content: Artifact, next: Next, digests: Digests)
    requires Intends(log, path, content, next, digests)
    requires IsCreation(path, content) && path in log.files ==> SamePayload(content, log.files[path])
    ensures Extends(log, L.WithWrite(Deploying(log, next), path, content))
  {
  }

  lemma AfterWriteIsSound(log: L.Log, path: Path, content: Artifact, next: Next, ok: bool, digests: Digests)
    requires Intends(log, path, content, next, digests)
    ensures ThreadIsSound(L.WithWrite(Deploying(log, next), path, content), AfterWrite(next, ok), digests)
  {
  }

  /** One step of any interleaving keeps the log sound exactly when it overwrites no other release. */
  lemma StepIsSoundExactlyWhen(log: L.Log, w: World, a: Action, digests: Digests)
    requires Sound(log, w, digests) && FromBuild(a)
    ensures L.Sound(Recorded(log, w, a, digests), digests.checksum) <==> !Overwrites(w, a, digests)
    ensures !Overwrites(w, a, digests) ==> Sound(Recorded(log, w, a, digests), Act(w, a, digests), digests)
  {
    if a.Begin? {
      BeginKeepsSound(log, w, a, digests);
    } else if a.thread in w.threads {
      match w.threads[a.thread]
      case Listing(_, _) => ListingKeepsSound(log, w, a, digests);
      case Loading(_, _) => LoadingKeepsSound(log, w, a, digests);
      case Looking(_, _, _) => LookingKeepsSound(log, w, a, digests);
      case Putting(_, _, _, _) => PuttingKeepsSoundExactlyWhen(log, w, a, digests);
      case Done => assert w.threads[a.thread := Done] == w.threads;
    }
  }

  // ---------------------------------------------------------------- every interleaving

  ghost predicate AllFromBuild(actions: seq<Action>) {
    forall i :: 0 <= i < |actions| ==> FromBuild(actions[i])
  }

  ghost predicate NothingOverwritten(actions: seq<Action>, digests: Digests) {
    actions == [] ||
    (var earlier := actions[..|actions| - 1];
     NothingOverwritten(earlier, digests) && !Overwrites(After(earlier, digests), actions[|actions| - 1], digests))
  }

  lemma {:induction false} InterleavingsAreSound(actions: seq<Action>, digests: Digests)
    requires AllFromBuild(actions) && NothingOverwritten(actions, digests)
    ensures Sound(Chronicle(actions, digests), After(actions, digests), digests)
  {
    if actions != [] {
      var earlier := actions[..|actions| - 1];
      InterleavingsAreSound(earlier, digests);
      StepIsSoundExactlyWhen(Chronicle(earlier, digests), After(earlier, digests), actions[|actions| - 1], digests);
    }
  }

  ghost predicate SoundThroughout(actions: seq<Action>, digests: Digests) {
    forall i :: 0 <= i <= |actions| ==> L.Sound(Chronicle(actions[..i], digests), digests.checksum)
  }

  lemma SoundOneMore(actions: seq<Action>, digests: Digests)
    requires actions != []
    ensures SoundThroughout(actions, digests) <==>
              && SoundThroughout(actions[..|actions| - 1], digests)
              && L.Sound(Chronicle(actions, digests), digests.checksum)
  {
    var earlier := actions[..|actions| - 1];
    assert actions[..|actions|] == actions;
    if SoundThroughout(actions, digests) {
      forall i | 0 <= i <= |earlier| ensures L.Sound(Chronicle(earlier[..i], digests), digests.checksum) {
        PrefixOfEarlier(actions, i);
      }
    }
    if SoundThroughout(earlier, digests) && L.Sound(Chronicle(actions, digests), digests.checksum) {
      forall i | 0 <= i <= |actions| ensures L.Sound(Chronicle(actions[..i], digests), digests.checksum) {
        if i < |actions| { PrefixOfEarlier(actions, i); }
      }
    }
  }

  lemma PrefixOfEarlier(actions: seq<Action>, i: nat)
    requires i < |actions|
    ensures actions[..|actions| - 1][..i] == actions[..i]
  {
  }

  /** Under any interleaving and any failures the log is sound all the way exactly when no
      creation ever overwrites a release with another payload. */
  lemma {:induction false} SoundThroughoutExactlyWhen(actions: seq<Action>, digests: Digests)
    requires AllFromBuild(actions)
    ensures SoundThroughout(actions, digests) <==> NothingOverwritten(actions, digests)
  {
    if actions == [] {
      assert actions[..0] == [];
    } else {
      var last := |actions| - 1;
      var earlier := actions[..last];
      SoundThroughoutExactlyWhen(earlier, digests);
      SoundOneMore(actions, digests);
      if NothingOverwritten(earlier, digests) {
        InterleavingsAreSound(earlier, digests);
        StepIsSoundExactlyWhen(Chronicle(earlier, digests), After(earlier, digests), actions[last], digests);
      }
    }
  }

  /** Then current.yaml names a release it agrees with on all but status and changelog, ... */
  lemma CurrentNamesARelease(actions: seq<Action>, digests: Digests, dir: string)
    requires AllFromBuild(actions) && NothingOverwritten(actions, digests)
               && CurrentFile(dir) in After(actions, digests).files
    ensures var files := After(actions, digests).files;
            var path := ReleaseFile(dir, files[CurrentFile(dir)].metadata.version);
            path in files && SamePayload(files[CurrentFile(dir)], files[path])
  {
    InterleavingsAreSound(actions, digests);
    assert L.CurrentIsSound(Chronicle(actions, digests), dir);
  }

  /** ... the evaluation gate holds, ... */
  lemma EvalGate(actions: seq<Action>, digests: Digests, dir: string, n: int)
    requires AllFromBuild(actions) && NothingOverwritten(actions, digests)
    ensures var files, log, path := After(actions, digests).files, Chronicle(actions, digests), ReleaseFile(dir, n);
            path in files && files[path].governance.minQualityScore > 0 ==>
              && (files[path].metadata.status == Active ==> path in log.passed)
              && (CurrentFile(dir) in files && files[CurrentFile(dir)].metadata.version == n ==>
                    path in log.passed + log.deployed)
  {
    InterleavingsAreSound(actions, digests);
    var log := Chronicle(actions, digests);
    if ReleaseFile(dir, n) in log.files { assert L.ReleaseIsSound(log, dir, n, digests.checksum); }
    if CurrentFile(dir) in log.files { assert L.CurrentIsSound(log, dir); }
  }

  /** ... and payloads never change. */
  lemma {:induction false} PayloadsNeverChange(actions: seq<Action>, digests: Digests, i: nat, path: Path)
    requires AllFromBuild(actions) && NothingOverwritten(actions, digests)
    requires i <= |actions| && path.ReleaseFile? && path in After(actions[..i], digests).files
    ensures path in After(actions, digests).files
    ensures SamePayload(After(actions, digests).files[path], After(actions[..i], digests).files[path])
  {
    if i == |actions| {
      assert actions[..i] == actions;
    } else {
      var earlier := actions[..|actions| - 1];
      assert earlier[..i] == actions[..i];
      PayloadsNeverChange(earlier, digests, i, path);
      InterleavingsAreSound(earlier, digests);
      StepKeepsPayloads(Chronicle(earlier, digests), After(earlier, digests), actions[|actions| - 1], digests, path);
    }
  }

  /** Only a PUT changes files. */
  lemma OnlyPutsWrite(w: World, a: Action, digests: Digests)
    requires a.Step? && a.thread in w.threads ==> !w.threads[a.thread].Putting?
    ensures Act(w, a, digests).files == w.files
  {
  }

  lemma PutKeepsPayloads(log: L.Log, w: World, a: Action, digests: Digests, path: Path)
    requires Sound(log, w, digests) && !Overwrites(w, a, digests) && path.ReleaseFile? && path in w.files
    requires a.Step? && a.thread in w.threads && w.threads[a.thread].Putting?
    ensures path in Act(w, a, digests).files && SamePayload(Act(w, a, digests).files[path], w.files[path])
  {
    var p := w.threads[a.thread];
    if Accepts(w.files, p.path, p.sha, digests.blob) && a.fate != Refused {
      AcceptedWrite(log, w, a, digests);
      WriteExtends(log, p.path, p.content, p.next, digests);
    } else {
      RejectedWrite(log, w, a, digests);
    }
  }

  lemma StepKeepsPayloads(log: L.Log, w: World, a: Action, digests: Digests, path: Path)
    requires Sound(log, w, digests) && !Overwrites(w, a, digests) && path.ReleaseFile? && path in w.files
    ensures path in Act(w, a, digests).files && SamePayload(Act(w, a, digests).files[path], w.files[path])
  {
    if a.Step? && a.thread in w.threads && w.threads[a.thread].Putting? {
      PutKeepsPayloads(log, w, a, digests, path);
    } else {
      OnlyPutsWrite(w, a, digests);
    }
  }

  /** The action reads the release for a passing verdict. */
  ghost predicate PassesIn(w: World, a: Action, p: Path) {
    && a.Step? && a.fate != Refused && a.thread in w.threads
    && w.threads[a.thread] == Loading(p, Approve(true)) && p in w.files
  }

  /** The action puts the release into current.yaml for a deploy. */
  ghost predicate DeploysIn(w: World, a: Action, p: Path, digests: Digests) {
    && a.Step? && a.fate != Refused && a.thread in w.threads
    && PutsForDeploy(w, w.threads[a.thread], p, digests) && p in w.files
  }

  ghost predicate PassesAt(actions: seq<Action>, i: nat, p: Path, digests: Digests) {
    i < |actions| && PassesIn(After(actions[..i], digests), actions[i], p)
  }

  ghost predicate DeploysAt(actions: seq<Action>, i: nat, p: Path, digests: Digests) {
    i < |actions| && DeploysIn(After(actions[..i], digests), actions[i], p, digests)
  }

  ghost predicate PutsForDeploy(w: World, thread: Thread, p: Path, digests: Digests) {
    && thread.Putting? && p.ReleaseFile? && thread.next == ThenApply(p.dir, p.version)
    && Accepts(w.files, thread.path, thread.sha, digests.blob)
  }

  lemma OneMoreAction(actions: seq<Action>, i: nat, p: Path, digests: Digests)
    requires actions != []
    ensures var earlier := actions[..|actions| - 1];
            && (PassesAt(earlier, i, p, digests) ==> PassesAt(actions, i, p, digests))
            && (DeploysAt(earlier, i, p, digests) ==> DeploysAt(actions, i, p, digests))
  {
    if i < |actions| - 1 { assert actions[..|actions| - 1][..i] == actions[..i]; }
  }

  /** What one action adds to the records. */
  lemma NewRecords(log: L.Log, w: World, a: Action, digests: Digests, p: Path)
    requires log.files == w.files && WellNumbered(w)
    ensures var log' := Recorded(log, w, a, digests);
            && (p in log'.passed && p !in log.passed ==> PassesIn(w, a, p))
            && (p in log'.deployed && p !in log.deployed ==> DeploysIn(w, a, p, digests))
  {
    if a.Step? && a.thread in w.threads && w.threads[a.thread].Putting? {
      assert ThreadFits(w.files, w.threads[a.thread]);
    }
  }

  /** What the records stand for: a verdict read on, and a deploy written of, a release that existed
      at that point. */
  lemma {:induction false} RecordsAreEarned(actions: seq<Action>, digests: Digests, p: Path)
    ensures p in Chronicle(actions, digests).passed ==> exists i: nat :: PassesAt(actions, i, p, digests)
    ensures p in Chronicle(actions, digests).deployed ==> exists i: nat :: DeploysAt(actions, i, p, digests)
  {
    if actions != [] {
      var last := |actions| - 1;
      var earlier := actions[..last];
      RecordsAreEarned(earlier, digests, p);
      EveryWorldIsWellNumbered(earlier, digests);
      ChronicleHasTheFiles(earlier, digests);
      NewRecords(Chronicle(earlier, digests), After(earlier, digests), actions[last], digests, p);
      EarnedEarlier(actions, digests, p);
      assert PassesIn(After(earlier, digests), actions[last], p) ==> PassesAt(actions, last, p, digests);
      assert DeploysIn(After(earlier, digests), actions[last], p, digests) ==> DeploysAt(actions, last, p, digests);
    }
  }

  lemma EarnedEarlier(actions: seq<Action>, digests: Digests, p: Path)
    requires actions != []
    ensures var earlier := actions[..|actions| - 1];
            && ((exists i: nat :: PassesAt(earlier, i, p, digests)) ==>
                  exists i: nat :: PassesAt(actions, i, p, digests))
            && ((exists i: nat :: DeploysAt(earlier, i, p, digests)) ==>
                  exists i: nat :: DeploysAt(actions, i, p, digests))
  {
    var earlier := actions[..|actions| - 1];
    if i: nat :| PassesAt(earlier, i, p, digests) { OneMoreAction(actions, i, p, digests); }
    if i: nat :| DeploysAt(earlier, i, p, digests) { OneMoreAction(actions, i, p, digests); }
  }

  ghost predicate Asked(actions: seq<Action>, p: Path, job: Job) {
    exists j :: 0 <= j < |actions| && actions[j].Begin? && Start(actions[j].request) == Loading(p, job)
  }

  /** The thread does this job on this release. */
  ghost predicate WorksOn(thread: Thread, p: Path, job: Job) {
    match thread
    case Loading(path, j) => path == p && j == job
    case Looking(_, _, next) => p.ReleaseFile? && job == Job.Deploy && next == ThenApply(p.dir, p.version)
    case Putting(_, _, _, next) => p.ReleaseFile? && job == Job.Deploy && next == ThenApply(p.dir, p.version)
    case _ => false
  }

  lemma WorkGoesOn(files: Files, thread: Thread, fate: Fate, digests: Digests, p: Path, job: Job)
    requires WorksOn(Call(files, thread, fate, digests).1, p, job) && job != Approve(false)
    requires L.WellNumbered(files) && ThreadFits(files, thread)
    ensures WorksOn(thread, p, job)
  {
    if thread.Loading? && thread.path in files {
      assert L.Fits(files, thread.path, files[thread.path]);
    }
  }

  /** Verdicts and deploys are at work only because a request asked for them. */
  lemma {:induction false} WorkWasAsked(actions: seq<Action>, digests: Digests, t: nat, p: Path, job: Job)
    requires t in After(actions, digests).threads && WorksOn(After(actions, digests).threads[t], p, job)
    requires job != Approve(false)
    ensures Asked(actions, p, job)
  {
    var last := |actions| - 1;
    var earlier, a := actions[..last], actions[last];
    var w := After(earlier, digests);
    if a.Begin? && a.thread == t && (t in w.threads ==> w.threads[t] == Done) {
      assert Start(actions[last].request) == Loading(p, job);
    } else {
      EveryWorldIsWellNumbered(earlier, digests);
      if a.Step? && a.thread == t { WorkGoesOn(w.files, w.threads[t], a.fate, digests, p, job); }
      WorkWasAsked(earlier, digests, t, p, job);
      StillAsked(actions, p, job);
    }
  }

  lemma StillAsked(actions: seq<Action>, p: Path, job: Job)
    requires actions != [] && Asked(actions[..|actions| - 1], p, job)
    ensures Asked(actions, p, job)
  {
    var earlier := actions[..|actions| - 1];
    var j :| 0 <= j < |earlier| && earlier[j].Begin? && Start(earlier[j].request) == Loading(p, job);
    assert actions[j] == earlier[j];
  }

  /** What the gate takes for passed or deployed: a passing verdict, read on a release that existed; a
      deploy, written from one; and either asked for by a request that had begun by then. */
  lemma PassedAndDeployedWereRequested(actions: seq<Action>, digests: Digests, p: Path)
    ensures p in Chronicle(actions, digests).passed ==>
              exists i: nat :: PassesAt(actions, i, p, digests) && Asked(actions[..i], p, Approve(true))
    ensures p in Chronicle(actions, digests).deployed ==>
              exists i: nat :: DeploysAt(actions, i, p, digests) && Asked(actions[..i], p, Job.Deploy)
  {
    RecordsAreEarned(actions, digests, p);
    if i: nat :| PassesAt(actions, i, p, digests) {
      WorkWasAsked(actions[..i], digests, actions[i].thread, p, Approve(true));
    }
    if i: nat :| DeploysAt(actions, i, p, digests) {
      WorkWasAsked(actions[..i], digests, actions[i].thread, p, Job.Deploy);
    }
  }

  // ---------------------------------------------------------------- creators that do not overlap

  /** Between its listing and its PUT. */
  ghost predicate InWindow(thread: Thread, dir: string) {
    (thread.Looking? || thread.Putting?) && IsCreation(thread.path, thread.content) && thread.path.dir == dir
  }

  ghost predicate OneCreatorEach(w: World) {
    forall t, u, dir ::
      t in w.threads && u in w.threads && InWindow(w.threads[t], dir) && InWindow(w.threads[u], dir) ==> t == u
  }

  ghost predicate ListingSucceeds(w: World, a: Action) {
    a.Step? && a.thread in w.threads && w.threads[a.thread].Listing? ==> a.fate != Refused
  }

  /** Listings succeed, and no two creators of one directory are between listing and PUT at once. */
  ghost predicate Serial(actions: seq<Action>, digests: Digests) {
    actions == [] ||
    (var earlier := actions[..|actions| - 1];
     Serial(earlier, digests) && ListingSucceeds(After(earlier, digests), actions[|actions| - 1])
     && OneCreatorEach(After(actions, digests)))
  }

  ghost predicate NamesAreFree(w: World) {
    forall t, dir :: t in w.threads && InWindow(w.threads[t], dir) ==> w.threads[t].path !in w.files
  }

  lemma LoadingIsOutside(path: Path, content: Artifact, job: Job, dir: string)
    requires path.CurrentFile? <==> job.Bury?
    ensures !InWindow(AfterLoad(path, content, job), dir)
  {
  }

  lemma WrittenIsOutside(next: Next, ok: bool, dir: string)
    ensures !InWindow(AfterWrite(next, ok), dir)
  {
  }

  /** A thread's next call brings it into the window only from a listing that found its name free. */
  lemma EntersWithAFreeName(files: Files, thread: Thread, fate: Fate, digests: Digests, dir: string)
    requires thread.Loading? ==> (thread.path.CurrentFile? <==> thread.job.Bury?)
    requires InWindow(thread, dir) ==> thread.path !in files
    requires thread.Listing? ==> fate != Refused
    ensures var after := Call(files, thread, fate, digests).1;
            InWindow(after, dir) ==> after.path !in files && !thread.Putting?
  {
    match thread
    case Listing(_, _) =>
    case Loading(path, job) => if path in files { LoadingIsOutside(path, files[path], job, dir); }
    case Looking(_, _, next) => WrittenIsOutside(next, false, dir);
    case Putting(_, _, _, next) =>
      WrittenIsOutside(next, false, dir);
      WrittenIsOutside(next, fate == Acknowledged, dir);
    case Done =>
  }

  /** An accepted PUT takes no name another creator is about to use. */
  lemma PutTakesNoOthersName(log: L.Log, w: World, t: nat, u: nat, dir: string, digests: Digests)
    requires Sound(log, w, digests) && NamesAreFree(w) && OneCreatorEach(w)
    requires t in w.threads && u in w.threads && t != u && w.threads[t].Putting? && InWindow(w.threads[u], dir)
    ensures w.threads[t].path != w.threads[u].path
  {
    var p := w.threads[t];
    assert Intends(log, p.path, p.content, p.next, digests);
    if IsCreation(p.path, p.content) { assert InWindow(p, p.path.dir); }
  }

  lemma NothingIsOverwritten(w: World, a: Action, digests: Digests)
    requires NamesAreFree(w)
    ensures !Overwrites(w, a, digests)
  {
    if a.Step? && a.thread in w.threads && w.threads[a.thread].Putting? {
      var p := w.threads[a.thread];
      if IsCreation(p.path, p.content) { assert InWindow(p, p.path.dir); }
    }
  }

  /** No other thread than the one that moved finds its name taken. */
  lemma OthersNameStaysFree(log: L.Log, w: World, a: Action, u: nat, dir: string, digests: Digests)
    requires Sound(log, w, digests) && NamesAreFree(w) && OneCreatorEach(w)
    requires a.Step? && a.thread in w.threads && u in w.threads && u != a.thread && InWindow(w.threads[u], dir)
    ensures w.threads[u].path !in Act(w, a, digests).files
  {
    var p := w.threads[a.thread];
    if p.Putting? {
      PutTakesNoOthersName(log, w, a.thread, u, dir, digests);
      if Accepts(w.files, p.path, p.sha, digests.blob) && a.fate != Refused {
        AcceptedWrite(log, w, a, digests);
      } else {
        RejectedWrite(log, w, a, digests);
      }
    }
  }

  /** Nor does the one that moved. */
  lemma OwnNameIsFree(log: L.Log, w: World, a: Action, dir: string, digests: Digests)
    requires Sound(log, w, digests) && NamesAreFree(w) && ListingSucceeds(w, a)
    requires a.Step? && a.thread in w.threads && InWindow(Act(w, a, digests).threads[a.thread], dir)
    ensures Act(w, a, digests).threads[a.thread].path !in Act(w, a, digests).files
  {
    assert ThreadIsSound(log, w.threads[a.thread], digests);
    EntersWithAFreeName(w.files, w.threads[a.thread], a.fate, digests, dir);
  }

  lemma BegunIsOutside(w: World, a: Action, u: nat, dir: string, digests: Digests)
    requires a.Begin? && u in Act(w, a, digests).threads && InWindow(Act(w, a, digests).threads[u], dir)
    ensures u in w.threads && InWindow(w.threads[u], dir) && Act(w, a, digests).threads[u] == w.threads[u]
  {
  }

  lemma NameStaysFree(log: L.Log, w: World, a: Action, u: nat, dir: string, digests: Digests)
    requires Sound(log, w, digests) && NamesAreFree(w) && OneCreatorEach(w) && ListingSucceeds(w, a)
    requires u in Act(w, a, digests).threads && InWindow(Act(w, a, digests).threads[u], dir)
    ensures Act(w, a, digests).threads[u].path !in Act(w, a, digests).files
  {
    if a.Begin? {
      BegunIsOutside(w, a, u, dir, digests);
    } else if a.thread in w.threads {
      if u == a.thread {
        OwnNameIsFree(log, w, a, dir, digests);
      } else {
        OthersNameStaysFree(log, w, a, u, dir, digests);
      }
    }
  }

  lemma NamesStayFree(log: L.Log, w: World, a: Action, digests: Digests)
    requires Sound(log, w, digests) && NamesAreFree(w) && OneCreatorEach(w) && ListingSucceeds(w, a)
    ensures NamesAreFree(Act(w, a, digests)) && !Overwrites(w, a, digests)
  {
    NothingIsOverwritten(w, a, digests);
    var w' := Act(w, a, digests);
    forall u, dir | u in w'.threads && InWindow(w'.threads[u], dir) ensures w'.threads[u].path !in w'.files {
      NameStaysFree(log, w, a, u, dir, digests);
    }
  }

  /** Creators that take turns overwrite nothing, whatever else runs beside them and whatever fails. */
  lemma {:induction false} SerialCreatorsOverwriteNothing(actions: seq<Action>, digests: Digests)
    requires AllFromBuild(actions) && Serial(actions, digests)
    ensures NothingOverwritten(actions, digests) && NamesAreFree(After(actions, digests))
              && OneCreatorEach(After(actions, digests))
  {
    if actions != [] {
      var earlier := actions[..|actions| - 1];
      SerialCreatorsOverwriteNothing(earlier, digests);
      InterleavingsAreSound(earlier, digests);
      NamesStayFree(Chronicle(earlier, digests), After(earlier, digests), actions[|actions| - 1], digests);
    }
  }

  // ---------------------------------------------------------------- creators that do

  ghost function Acts(w: World, actions: seq<Action>, digests: Digests): World {
    if actions == [] then w
    else Act(Acts(w, actions[..|actions| - 1], digests), actions[|actions| - 1], digests)
  }

  lemma AllButLast(actions: seq<Action>, more: seq<Action>)
    requires more != []
    ensures var all, last := actions + more, |more| - 1;
            all != [] && all[..|all| - 1] == actions + more[..last] && all[|all| - 1] == more[last]
  {
  }

  lemma {:induction false} ThenActs(actions: seq<Action>, more: seq<Action>, digests: Digests)
    ensures After(actions + more, digests) == Acts(After(actions, digests), more, digests)
  {
    if more == [] {
      assert actions + more == actions;
    } else {
      AllButLast(actions, more);
      ThenActs(actions, more[..|more| - 1], digests);
    }
  }

  lemma {:induction false} ActsThenActs(w: World, actions: seq<Action>, more: seq<Action>, digests: Digests)
    ensures Acts(w, actions + more, digests) == Acts(Acts(w, actions, digests), more, digests)
  {
    if more == [] {
      assert actions + more == actions;
    } else {
      AllButLast(actions, more);
      ActsThenActs(w, actions, more[..|more| - 1], digests);
    }
  }

  function Steps(t: nat, fates: seq<Fate>): seq<Action> {
    seq(|fates|, i requires 0 <= i < |fates| => Step(t, fates[i]))
  }

  lemma {:induction false} AloneThen(files: Files, thread: Thread, fates: seq<Fate>, last: Fate, digests: Digests)
    ensures Alone(files, thread, fates + [last], digests) ==
              var (files', thread') := Alone(files, thread, fates, digests);
              Call(files', thread', last, digests)
    decreases |fates|
  {
    if fates != [] {
      var (files', thread') := Call(files, thread, fates[0], digests);
      AloneThen(files', thread', fates[1..], last, digests);
      assert (fates + [last])[1..] == fates[1..] + [last];
    }
  }

  lemma LastStep(t: nat, fates: seq<Fate>)
    requires fates != []
    ensures var last := |fates| - 1;
            && Steps(t, fates)[..last] == Steps(t, fates[..last]) && Steps(t, fates)[last] == Step(t, fates[last])
            && fates == fates[..last] + [fates[last]]
  {
  }

  /** Consecutive calls of one thread are that request running alone for a while. */
  lemma {:induction false} StepsAreAlone(w: World, t: nat, fates: seq<Fate>, digests: Digests)
    requires t in w.threads
    ensures Acts(w, Steps(t, fates), digests) ==
              var (files, thread) := Alone(w.files, w.threads[t], fates, digests);
              World(files, w.threads[t := thread])
  {
    if fates == [] {
      assert w.threads[t := w.threads[t]] == w.threads;
    } else {
      var last := |fates| - 1;
      LastStep(t, fates);
      StepsAreAlone(w, t, fates[..last], digests);
      AloneThen(w.files, w.threads[t], fates[..last], fates[last], digests);
    }
  }

  lemma WriteSteps(w: World, t: nat, digests: Digests)
    requires t in w.threads && w.threads[t].Looking?
    ensures var l := w.threads[t];
            Acts(w, Steps(t, [Acknowledged, Acknowledged]), digests) ==
              World(w.files[l.path := l.content], w.threads[t := AfterWrite(l.next, true)])
  {
    StepsAreAlone(w, t, [Acknowledged, Acknowledged], digests);
    var l := w.threads[t];
    assert [Acknowledged, Acknowledged] == [Acknowledged, Acknowledged] + [];
    WriteAlone(w.files, l.path, l.content, l.next, Acknowledged, [], digests);
  }

  ghost predicate FaultFree(actions: seq<Action>) {
    forall i :: 0 <= i < |actions| ==>
      match actions[i]
      case Begin(_, r) => r.Create?
      case Step(_, fate) => fate == Acknowledged
  }

  ghost predicate Idle(w: World, t: nat) { t in w.threads ==> w.threads[t] == Done }

  function Creation(dir: string, built: Artifact): L.Request {
    L.Create(dir, built, true, Acknowledged, L.Net(true, Acknowledged, Acknowledged))
  }

  /** Thread t and thread u both list, then t commits, ... */
  function FirstCommits(t: nat, u: nat, first: Artifact, second: Artifact, dir: string): seq<Action> {
    [Begin(t, Creation(dir, first)), Begin(u, Creation(dir, second)), Step(t, Acknowledged), Step(u, Acknowledged)]
    + Steps(t, [Acknowledged, Acknowledged])
  }

  /** ... then u does. */
  function Overlap(t: nat, u: nat, first: Artifact, second: Artifact, dir: string): seq<Action> {
    FirstCommits(t, u, first, second, dir) + Steps(u, [Acknowledged, Acknowledged])
  }

  function NextOf(built: Artifact, path: Path): Next {
    if L.RequiresEval(built) || path.CurrentFile? then ThenStop else ThenApprove(path.dir, path.version)
  }

  ghost function NextPath(w: World, dir: string): Path { ReleaseFile(dir, Highest(w.files, dir) + 1) }

  lemma BothBegin(w: World, t: nat, u: nat, first: Artifact, second: Artifact, dir: string, digests: Digests)
    requires t != u && Idle(w, t) && Idle(w, u)
    ensures Acts(w, FirstCommits(t, u, first, second, dir)[..2], digests) ==
              World(w.files, w.threads[t := Listing(dir, first)][u := Listing(dir, second)])
  {
    var begins := [Begin(t, Creation(dir, first)), Begin(u, Creation(dir, second))];
    assert FirstCommits(t, u, first, second, dir)[..2] == begins;
    assert begins[..1][..0] == [] && Acts(w, begins[..1], digests) == Act(w, begins[0], digests);
  }

  lemma BothList(w: World, t: nat, u: nat, first: Artifact, second: Artifact, dir: string, digests: Digests)
    requires t != u && Idle(w, t) && Idle(w, u)
    ensures var path := NextPath(w, dir);
            Acts(w, FirstCommits(t, u, first, second, dir)[..4], digests) == World(w.files, w.threads
              [t := Looking(path, L.Numbered(first, path.version, digests.checksum), NextOf(first, path))]
              [u := Looking(path, L.Numbered(second, path.version, digests.checksum), NextOf(second, path))])
  {
    var race, lists := FirstCommits(t, u, first, second, dir), Steps(t, [Acknowledged]) + Steps(u, [Acknowledged]);
    BothBegin(w, t, u, first, second, dir, digests);
    assert race[..4] == race[..2] + lists;
    ActsThenActs(w, race[..2], lists, digests);
    TwoList(w, t, u, first, second, dir, digests);
  }

  lemma FirstLists(w: World, t: nat, u: nat, first: Artifact, second: Artifact, dir: string, digests: Digests)
    requires t != u
    ensures var begun := World(w.files, w.threads[t := Listing(dir, first)][u := Listing(dir, second)]);
            var path := NextPath(w, dir);
            var a := Looking(path, L.Numbered(first, path.version, digests.checksum), NextOf(first, path));
            Acts(begun, Steps(t, [Acknowledged]), digests) ==
              World(w.files, w.threads[t := a][u := Listing(dir, second)])
  {
    var path := NextPath(w, dir);
    var a := Looking(path, L.Numbered(first, path.version, digests.checksum), NextOf(first, path));
    Lists(World(w.files, w.threads[t := Listing(dir, first)][u := Listing(dir, second)]), t, first, dir, digests);
    Reassigned(w.threads, t, u, Listing(dir, first), Listing(dir, second), a);
  }

  lemma ThenSecondLists(w: World, threads: map<nat, Thread>, u: nat, second: Artifact, dir: string, digests: Digests)
    ensures var path := NextPath(w, dir);
            var b := Looking(path, L.Numbered(second, path.version, digests.checksum), NextOf(second, path));
            Acts(World(w.files, threads[u := Listing(dir, second)]), Steps(u, [Acknowledged]), digests) ==
              World(w.files, threads[u := b])
  {
    var path := NextPath(w, dir);
    var b := Looking(path, L.Numbered(second, path.version, digests.checksum), NextOf(second, path));
    Lists(World(w.files, threads[u := Listing(dir, second)]), u, second, dir, digests);
    ReassignedLast(threads, u, Listing(dir, second), b);
  }

  lemma TwoList(w: World, t: nat, u: nat, first: Artifact, second: Artifact, dir: string, digests: Digests)
    requires t != u
    ensures var begun := World(w.files, w.threads[t := Listing(dir, first)][u := Listing(dir, second)]);
            var path := NextPath(w, dir);
            Acts(begun, Steps(t, [Acknowledged]) + Steps(u, [Acknowledged]), digests) == World(w.files, w.threads
              [t := Looking(path, L.Numbered(first, path.version, digests.checksum), NextOf(first, path))]
              [u := Looking(path, L.Numbered(second, path.version, digests.checksum), NextOf(second, path))])
  {
    var begun := World(w.files, w.threads[t := Listing(dir, first)][u := Listing(dir, second)]);
    var path := NextPath(w, dir);
    var a := Looking(path, L.Numbered(first, path.version, digests.checksum), NextOf(first, path));
    ActsThenActs(begun, Steps(t, [Acknowledged]), Steps(u, [Acknowledged]), digests);
    FirstLists(w, t, u, first, second, dir, digests);
    ThenSecondLists(w, w.threads[t := a], u, second, dir, digests);
  }

  lemma Lists(w: World, t: nat, built: Artifact, dir: string, digests: Digests)
    requires t in w.threads && w.threads[t] == Listing(dir, built)
    ensures var path := NextPath(w, dir);
            var looking := Looking(path, L.Numbered(built, path.version, digests.checksum), NextOf(built, path));
            Acts(w, Steps(t, [Acknowledged]), digests) == World(w.files, w.threads[t := looking])
  {
    var step := Steps(t, [Acknowledged]);
    assert step == [Step(t, Acknowledged)] && step[..0] == [];
    assert Acts(w, [], digests) == w;
  }

  lemma FirstCommit(w: World, t: nat, u: nat, first: Artifact, second: Artifact, dir: string, digests: Digests)
    requires t != u && Idle(w, t) && Idle(w, u)
    ensures var path := NextPath(w, dir);
            Acts(w, FirstCommits(t, u, first, second, dir), digests) ==
              World(w.files[path := L.Numbered(first, path.version, digests.checksum)], w.threads
                [t := AfterWrite(NextOf(first, path), true)]
                [u := Looking(path, L.Numbered(second, path.version, digests.checksum), NextOf(second, path))])
  {
    var write, race, path := [Acknowledged, Acknowledged], FirstCommits(t, u, first, second, dir), NextPath(w, dir);
    BothList(w, t, u, first, second, dir, digests);
    assert race == race[..4] + Steps(t, write);
    ActsThenActs(w, race[..4], Steps(t, write), digests);
    WriteSteps(Acts(w, race[..4], digests), t, digests);
    Reassigned(w.threads, t, u, Looking(path, L.Numbered(first, path.version, digests.checksum), NextOf(first, path)),
               Looking(path, L.Numbered(second, path.version, digests.checksum), NextOf(second, path)),
               AfterWrite(NextOf(first, path), true));
  }

  lemma Reassigned(threads: map<nat, Thread>, t: nat, u: nat, a: Thread, b: Thread, c: Thread)
    requires t != u
    ensures threads[t := a][u := b][t := c] == threads[t := c][u := b]
  {
  }

  lemma ReassignedLast(threads: map<nat, Thread>, u: nat, b: Thread, c: Thread)
    ensures threads[u := b][u := c] == threads[u := c]
  {
  }

  lemma SecondCommit(mid: World, files: Files, threads: map<nat, Thread>, u: nat, path: Path, a: Artifact, b: Thread,
                     digests: Digests)
    requires b.Looking? && b.path == path && mid == World(files[path := a], threads[u := b])
    ensures Acts(mid, Steps(u, [Acknowledged, Acknowledged]), digests) ==
              World(files[path := b.content], threads[u := AfterWrite(b.next, true)])
  {
    WriteSteps(mid, u, digests);
    assert files[path := a][path := b.content] == files[path := b.content];
    ReassignedLast(threads, u, b, AfterWrite(b.next, true));
  }

  lemma BothCommit(w: World, t: nat, u: nat, first: Artifact, second: Artifact, dir: string, digests: Digests)
    requires t != u && Idle(w, t) && Idle(w, u)
    ensures var path := NextPath(w, dir);
            Acts(w, Overlap(t, u, first, second, dir), digests) ==
              World(w.files[path := L.Numbered(second, path.version, digests.checksum)], w.threads
                [t := AfterWrite(NextOf(first, path), true)][u := AfterWrite(NextOf(second, path), true)])
  {
    FirstCommit(w, t, u, first, second, dir, digests);
    ActsThenActs(w, FirstCommits(t, u, first, second, dir), Steps(u, [Acknowledged, Acknowledged]), digests);
    var path := NextPath(w, dir);
    SecondCommit(Acts(w, FirstCommits(t, u, first, second, dir), digests), w.files,
                 w.threads[t := AfterWrite(NextOf(first, path), true)], u, path,
                 L.Numbered(first, path.version, digests.checksum),
                 Looking(path, L.Numbered(second, path.version, digests.checksum), NextOf(second, path)), digests);
  }

  lemma OverlapIsFaultFree(t: nat, u: nat, first: Artifact, second: Artifact, dir: string)
    ensures FaultFree(Overlap(t, u, first, second, dir))
    ensures first.metadata.status == second.metadata.status == PendingEval ==>
              AllFromBuild(Overlap(t, u, first, second, dir))
  {
  }

  /** After any run, in any directory, two creations that overlap can lose a committed payload
      though no call fails: the second finds the file the first has just put there and replaces it. */
  lemma OverlappingCreatorsOverwrite(actions: seq<Action>, t: nat, u: nat, first: Artifact, second: Artifact,
                                     dir: string, digests: Digests)
    requires AllFromBuild(actions) && first.metadata.status == second.metadata.status == PendingEval
    requires t != u && Idle(After(actions, digests), t) && Idle(After(actions, digests), u)
    requires var n := Highest(After(actions, digests).files, dir) + 1;
             !SamePayload(L.Numbered(first, n, digests.checksum), L.Numbered(second, n, digests.checksum))
    ensures var more := Overlap(t, u, first, second, dir);
            FaultFree(more) && !NothingOverwritten(actions + more, digests)
  {
    var half, more := FirstCommits(t, u, first, second, dir), Overlap(t, u, first, second, dir);
    var path := NextPath(After(actions, digests), dir);
    OverlapIsFaultFree(t, u, first, second, dir);
    OverlapReplaces(actions, t, u, first, second, dir, digests);
    AllFromBuildTogether(actions, more);
    HalfWay(actions, half, Steps(u, [Acknowledged, Acknowledged]));
    LostPayloadsWereOverwritten(actions + more, |actions| + |half|, path, digests);
  }

  lemma HalfWay(actions: seq<Action>, half: seq<Action>, rest: seq<Action>)
    ensures (actions + (half + rest))[..|actions| + |half|] == actions + half
  {
  }

  lemma AllFromBuildTogether(actions: seq<Action>, more: seq<Action>)
    requires AllFromBuild(actions) && AllFromBuild(more)
    ensures AllFromBuild(actions + more)
  {
  }

  /** First the one release is there, then the other. */
  lemma OverlapReplaces(actions: seq<Action>, t: nat, u: nat, first: Artifact, second: Artifact, dir: string,
                        digests: Digests)
    requires t != u && Idle(After(actions, digests), t) && Idle(After(actions, digests), u)
    ensures var w := After(actions, digests);
            var path := NextPath(w, dir);
            && After(actions + FirstCommits(t, u, first, second, dir), digests).files ==
                 w.files[path := L.Numbered(first, path.version, digests.checksum)]
            && After(actions + Overlap(t, u, first, second, dir), digests).files ==
                 w.files[path := L.Numbered(second, path.version, digests.checksum)]
  {
    var w := After(actions, digests);
    ThenActs(actions, FirstCommits(t, u, first, second, dir), digests);
    FirstCommit(w, t, u, first, second, dir, digests);
    ThenActs(actions, Overlap(t, u, first, second, dir), digests);
    BothCommit(w, t, u, first, second, dir, digests);
  }

  lemma LostPayloadsWereOverwritten(run: seq<Action>, i: nat, path: Path, digests: Digests)
    requires AllFromBuild(run) && i <= |run| && path.ReleaseFile?
    requires path in After(run[..i], digests).files && path in After(run, digests).files
    requires !SamePayload(After(run, digests).files[path], After(run[..i], digests).files[path])
    ensures !NothingOverwritten(run, digests)
  {
    if NothingOverwritten(run, digests) { PayloadsNeverChange(run, digests, i, path); }
  }

  // ---------------------------------------------------------------- past the gate

  function Approval(): seq<Fate> {
    [Acknowledged, Acknowledged, Acknowledged, Acknowledged, Acknowledged]
  }

  /** Thread t approves a release, whatever it finds there. */
  lemma FirstApproves(w: World, t: nat, path: Path, digests: Digests)
    requires t in w.threads && path.ReleaseFile? && w.threads[t] == Loading(path, Approve(false)) && path in w.files
    ensures var active := L.WithStatus(w.files[path], Active);
            Acts(w, Steps(t, Approval()), digests).files == w.files[path := active][CurrentFile(path.dir) := active]
  {
    StepsAreAlone(w, t, Approval(), digests);
    var net := L.Net(true, Acknowledged, Acknowledged);
    assert ApprovalFates(net) == Approval();
    ApprovalAlone(w.files, path.dir, path.version, false, net, digests);
  }

  function Race(t: nat, u: nat, free: Artifact, gated: Artifact, dir: string): seq<Action> {
    Overlap(t, u, free, gated, dir) + Steps(t, Approval())
  }

  /** Nothing a creator does counts as a verdict or a deploy. */
  ghost predicate Harmless(thread: Thread) {
    && (thread.Loading? ==> thread.job == Approve(false))
    && (thread.Looking? || thread.Putting? ==> !thread.next.ThenApply?)
  }

  ghost predicate OnlyCreates(actions: seq<Action>, t: nat, u: nat) {
    forall i :: 0 <= i < |actions| ==> actions[i].thread in {t, u} && (actions[i].Begin? ==> actions[i].request.Create?)
  }

  ghost predicate BothHarmless(w: World, t: nat, u: nat) {
    (t in w.threads ==> Harmless(w.threads[t])) && (u in w.threads ==> Harmless(w.threads[u]))
  }

  lemma HarmlessCalls(files: Files, thread: Thread, fate: Fate, digests: Digests)
    requires Harmless(thread)
    ensures Harmless(Call(files, thread, fate, digests).1)
  {
  }

  lemma CreatorStepRecordsNothing(log: L.Log, w: World, a: Action, t: nat, u: nat, digests: Digests)
    requires BothHarmless(w, t, u) && a.thread in {t, u} && (a.Begin? ==> a.request.Create?)
    ensures BothHarmless(Act(w, a, digests), t, u)
    ensures Recorded(log, w, a, digests).passed == log.passed && Recorded(log, w, a, digests).deployed == log.deployed
  {
    if a.Step? && a.thread in w.threads { HarmlessCalls(w.files, w.threads[a.thread], a.fate, digests); }
  }

  lemma ChronicleOneMore(actions: seq<Action>, more: seq<Action>, digests: Digests)
    requires more != []
    ensures var earlier, last := actions + more[..|more| - 1], more[|more| - 1];
            && After(actions + more, digests) == Act(After(earlier, digests), last, digests)
            && Chronicle(actions + more, digests) ==
                 Recorded(Chronicle(earlier, digests), After(earlier, digests), last, digests)
  {
    AllButLast(actions, more);
  }

  lemma {:induction false} CreatorsRecordNothing(actions: seq<Action>, more: seq<Action>, t: nat, u: nat,
                                                 digests: Digests)
    requires OnlyCreates(more, t, u) && BothHarmless(After(actions, digests), t, u)
    ensures BothHarmless(After(actions + more, digests), t, u)
    ensures Chronicle(actions + more, digests).passed == Chronicle(actions, digests).passed
    ensures Chronicle(actions + more, digests).deployed == Chronicle(actions, digests).deployed
  {
    if more == [] {
      assert actions + more == actions;
    } else {
      var last := |more| - 1;
      CreatorsRecordNothing(actions, more[..last], t, u, digests);
      ChronicleOneMore(actions, more, digests);
      CreatorStepRecordsNothing(Chronicle(actions + more[..last], digests), After(actions + more[..last], digests),
                                more[last], t, u, digests);
    }
  }

  lemma {:induction false} RecordedReleasesExist(actions: seq<Action>, digests: Digests)
    ensures var log := Chronicle(actions, digests);
            log.passed + log.deployed <= After(actions, digests).files.Keys
  {
    if actions != [] {
      var earlier, last := actions[..|actions| - 1], actions[|actions| - 1];
      RecordedReleasesExist(earlier, digests);
      EveryWorldIsWellNumbered(earlier, digests);
      ChronicleHasTheFiles(earlier, digests);
      ActKeepsNumbering(After(earlier, digests), last, digests);
      forall p ensures var log' := Recorded(Chronicle(earlier, digests), After(earlier, digests), last, digests);
                       p in log'.passed + log'.deployed ==> p in After(earlier, digests).files
      {
        NewRecords(Chronicle(earlier, digests), After(earlier, digests), last, digests, p);
      }
    }
  }

  /** After any run, in any directory: two creators both list; the second finds the first's file when it
      looks the blob up and replaces it; the first then approves what it reads back. A release that demands
      evaluation is active and current with no verdict and no deploy, though every call succeeded. */
  lemma CreatorsRacePastTheGate(actions: seq<Action>, t: nat, u: nat, free: Artifact, gated: Artifact, dir: string,
                                digests: Digests)
    requires t != u && Idle(After(actions, digests), t) && Idle(After(actions, digests), u)
    requires free.governance.minQualityScore <= 0 < gated.governance.minQualityScore
    ensures var more, path := Race(t, u, free, gated, dir), NextPath(After(actions, digests), dir);
            var files, log := After(actions + more, digests).files, Chronicle(actions + more, digests);
            && FaultFree(more)
            && path in files && CurrentFile(dir) in files && files[CurrentFile(dir)] == files[path]
            && files[path] == L.WithStatus(L.Numbered(gated, path.version, digests.checksum), Active)
            && files[path].metadata.status == Active && files[path].governance == gated.governance
            && path !in log.passed + log.deployed
  {
    RaceEnds(actions, t, u, free, gated, dir, digests);
    RaceIsFaultFree(t, u, free, gated, dir);
    CreatorsRecordNothing(actions, Race(t, u, free, gated, dir), t, u, digests);
    RecordedReleasesExist(actions, digests);
  }

  lemma RaceIsFaultFree(t: nat, u: nat, free: Artifact, gated: Artifact, dir: string)
    ensures FaultFree(Race(t, u, free, gated, dir)) && OnlyCreates(Race(t, u, free, gated, dir), t, u)
  {
  }

  lemma RaceEnds(actions: seq<Action>, t: nat, u: nat, free: Artifact, gated: Artifact, dir: string, digests: Digests)
    requires t != u && Idle(After(actions, digests), t) && Idle(After(actions, digests), u) && !L.RequiresEval(free)
    ensures var w := After(actions, digests);
            var path := NextPath(w, dir);
            var active := L.WithStatus(L.Numbered(gated, path.version, digests.checksum), Active);
            After(actions + Race(t, u, free, gated, dir), digests).files ==
              w.files[path := active][CurrentFile(dir) := active]
  {
    var w, overlap := After(actions, digests), Overlap(t, u, free, gated, dir);
    var path := NextPath(w, dir);
    BothCommit(w, t, u, free, gated, dir, digests);
    ThenActs(actions, Race(t, u, free, gated, dir), digests);
    ActsThenActs(w, overlap, Steps(t, Approval()), digests);
    FirstApproves(Acts(w, overlap, digests), t, path, digests);
    var committed := L.Numbered(gated, path.version, digests.checksum);
    Refiled(w.files, path, committed, L.WithStatus(committed, Active));
  }

  lemma Refiled(files: Files, path: Path, before: Artifact, after: Artifact)
    ensures files[path := before][path := after] == files[path := after]
  {
  }
}
