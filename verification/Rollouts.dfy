/** What current.yaml names against what the cluster runs. Approvals move current.yaml and leave the
    cluster alone; only a deploy moves both. The results say after which runs the two agree. */
module Rollouts {
  import opened Options
  import opened Text
  import opened Json
  import opened Faults
  import opened Artifacts
  import opened StateRepo
  import opened Cluster
  import opened Deploys
  import L = ReleaseLog

  /** A request; if it is a deploy, the agent's name and the calls to the cluster it goes on to. */
  datatype Event = Event(request: L.Request, agentName: string, net: Fates)

  function Requests(events: seq<Event>): seq<L.Request> {
    seq(|events|, i requires 0 <= i < |events| => events[i].request)
  }

  ghost function FilesAfter(events: seq<Event>, digest: Digest): Files { L.After(Requests(events), digest).files }

  /** What a deploy sends on to the cluster. */
  ghost function Sent(files: Files, e: Event): Option<Attempt> {
    match e.request
    case Deploy(dir, version, read, write) =>
      var path := ReleaseFile(dir, version);
      if read && path in files && write == Acknowledged then Some(Attempt(e.agentName, files[path], e.net)) else None
    case _ => None
  }

  ghost function Attempts(events: seq<Event>, digest: Digest): seq<Attempt> {
    if events == [] then []
    else
      var earlier, last := events[..|events| - 1], events[|events| - 1];
      var sent := Sent(FilesAfter(earlier, digest), last);
      Attempts(earlier, digest) + if sent.Some? then [sent.value] else []
  }

  ghost function ClusterAfter(c0: State, events: seq<Event>, digest: Digest, env: Env): State {
    Deploys.After(c0, Attempts(events, digest), env)
  }

  lemma OneMoreEvent(events: seq<Event>, digest: Digest)
    requires events != []
    ensures var earlier, last := events[..|events| - 1], events[|events| - 1];
            FilesAfter(events, digest) == L.FilesAfter(FilesAfter(earlier, digest), last.request, digest)
  {
    var requests := Requests(events);
    assert requests[..|requests| - 1] == Requests(events[..|events| - 1]);
  }

  // ---------------------------------------------------------------- what moves current.yaml

  function CurrentVersion(files: Files, dir: string): Option<int> {
    if CurrentFile(dir) in files then Some(files[CurrentFile(dir)].metadata.version) else None
  }

  /** The version a request makes current: a creation approved at once, a passing verdict, a deploy. */
  ghost function Moved(files: Files, r: L.Request, dir: string): Option<int> {
    match r
    case Create(d, built, listed, store, net) =>
      if d == dir && store == Acknowledged && !L.RequiresEval(built) && net.read && net.current != Refused
      then Some(L.NextVersion(files, dir, listed)) else None
    case EvalResult(d, version, passed, _, net) =>
      if d == dir && passed && net.read && ReleaseFile(dir, version) in files && net.current != Refused
      then Some(version) else None
    case Deploy(d, version, read, write) =>
      if d == dir && read && ReleaseFile(dir, version) in files && write != Refused then Some(version) else None
    case AgentDeleted(_, _, _) => None
  }

  ghost function LastMoved(events: seq<Event>, digest: Digest, dir: string): Option<int> {
    if events == [] then None
    else
      var earlier, last := events[..|events| - 1], events[|events| - 1];
      var moved := Moved(FilesAfter(earlier, digest), last.request, dir);
      if moved.Some? then moved else LastMoved(earlier, digest, dir)
  }

  lemma ApprovalMovesCurrent(files: Files, dir: string, d: string, version: int, net: L.Net)
    requires ReleaseFile(d, version) in files ==> files[ReleaseFile(d, version)].metadata.version == version
    ensures CurrentVersion(L.Approved(files, d, version, net), dir) ==
              if d == dir && net.read && ReleaseFile(d, version) in files && net.current != Refused then Some(version)
              else CurrentVersion(files, dir)
  {
  }

  lemma CreationMovesCurrent(files: Files, r: L.Request, digest: Digest, dir: string)
    requires r.Create?
    ensures CurrentVersion(L.FilesAfter(files, r, digest), dir) ==
              if Moved(files, r, dir).Some? then Moved(files, r, dir) else CurrentVersion(files, dir)
  {
    var version := L.NextVersion(files, r.dir, r.listed);
    var stored := L.Stored(files, r, digest);
    assert CurrentVersion(stored, dir) == CurrentVersion(files, dir);
    if r.store == Acknowledged {
      assert stored[ReleaseFile(r.dir, version)].metadata.version == version;
      ApprovalMovesCurrent(stored, dir, r.dir, version, r.net);
    }
  }

  lemma RequestMovesCurrent(files: Files, r: L.Request, digest: Digest, dir: string)
    requires L.WellNumbered(files)
    ensures CurrentVersion(L.FilesAfter(files, r, digest), dir) ==
              if Moved(files, r, dir).Some? then Moved(files, r, dir) else CurrentVersion(files, dir)
  {
    match r
    case Create(_, _, _, _, _) => CreationMovesCurrent(files, r, digest, dir);
    case EvalResult(d, version, passed, _, net) =>
      var path := ReleaseFile(d, version);
      if path in files { assert L.Fits(files, path, files[path]); }
      if passed { ApprovalMovesCurrent(files, dir, d, version, net); }
    case Deploy(d, version, _, _) =>
      var path := ReleaseFile(d, version);
      if path in files { assert L.Fits(files, path, files[path]); }
    case AgentDeleted(_, _, _) =>
  }

  /** After any run, current.yaml is at the version that last moved it. */
  lemma {:induction false} CurrentFollowsTheLastMove(events: seq<Event>, digest: Digest, dir: string)
    ensures CurrentVersion(FilesAfter(events, digest), dir) == LastMoved(events, digest, dir)
  {
    if events != [] {
      var earlier, last := events[..|events| - 1], events[|events| - 1];
      CurrentFollowsTheLastMove(earlier, digest, dir);
      OneMoreEvent(events, digest);
      L.EveryRunIsWellNumbered(Requests(earlier), digest);
      RequestMovesCurrent(FilesAfter(earlier, digest), last.request, digest, dir);
    }
  }

  // ---------------------------------------------------------------- what moves the cluster

  /** spec.version of a custom resource. */
  function SpecVersion(c: State, n: string): Option<Json> {
    if n in c.crds && c.crds[n].Obj? then FieldAt(c.crds[n].fields, "version") else None
  }

  /** The version a deploy brings to the custom resource n. */
  ghost function Reaches(files: Files, e: Event, c0: State, n: string, env: Env): Option<int> {
    if Sent(files, e).Some? && Reached(c0, e.agentName, e.net, env) == Some(n) then Some(e.request.version) else None
  }

  ghost function LastReached(events: seq<Event>, digest: Digest, c0: State, n: string, env: Env): Option<int> {
    if events == [] then None
    else
      var earlier, last := events[..|events| - 1], events[|events| - 1];
      var reaches := Reaches(FilesAfter(earlier, digest), last, c0, n, env);
      if reaches.Some? then reaches else LastReached(earlier, digest, c0, n, env)
  }

  function LastVersion(history: seq<Artifact>): Option<int> {
    if history == [] then None else Some(history[|history| - 1].metadata.version)
  }

  /** The last release in the history of a custom resource is the last to reach it. */
  lemma {:induction false} HistoryEndsAtTheLastReach(events: seq<Event>, digest: Digest, c0: State, n: string, env: Env)
    ensures LastReached(events, digest, c0, n, env) == LastVersion(History(c0, Attempts(events, digest), n, env))
  {
    if events != [] {
      var earlier, last := events[..|events| - 1], events[|events| - 1];
      HistoryEndsAtTheLastReach(earlier, digest, c0, n, env);
      OneMoreReach(earlier, last, digest, c0, n, env);
      OneMoreAttempted(events, digest);
    }
  }

  lemma OneMoreAttempted(events: seq<Event>, digest: Digest)
    requires events != []
    ensures var earlier, last := events[..|events| - 1], events[|events| - 1];
            Attempts(events, digest) == WithSent(Attempts(earlier, digest), Sent(FilesAfter(earlier, digest), last))
  {
  }

  function WithSent(attempts: seq<Attempt>, sent: Option<Attempt>): seq<Attempt> {
    if sent.Some? then attempts + [sent.value] else attempts
  }

  lemma OneMoreReach(events: seq<Event>, e: Event, digest: Digest, c0: State, n: string, env: Env)
    ensures var attempts, files := Attempts(events, digest), FilesAfter(events, digest);
            var reaches := Reaches(files, e, c0, n, env);
            LastVersion(History(c0, WithSent(attempts, Sent(files, e)), n, env)) ==
              if reaches.Some? then reaches else LastVersion(History(c0, attempts, n, env))
  {
    var sent := Sent(FilesAfter(events, digest), e);
    if sent.Some? {
      SentIsNumbered(events, e, digest);
      OneMoreInHistory(c0, Attempts(events, digest), sent.value, n, env);
    }
  }

  lemma SentIsNumbered(events: seq<Event>, e: Event, digest: Digest)
    requires Sent(FilesAfter(events, digest), e).Some?
    ensures Sent(FilesAfter(events, digest), e).value.release.metadata.version == e.request.version
  {
    var files, path := FilesAfter(events, digest), ReleaseFile(e.request.dir, e.request.version);
    L.EveryRunIsWellNumbered(Requests(events), digest);
    assert L.Fits(files, path, files[path]);
  }

  lemma OneMoreInHistory(c0: State, attempts: seq<Attempt>, a: Attempt, n: string, env: Env)
    ensures var history := History(c0, attempts, n, env);
            History(c0, attempts + [a], n, env) ==
              if Reached(c0, a.agentName, a.net, env) == Some(n) then history + [a.release] else history
  {
    assert (attempts + [a])[..|attempts|] == attempts;
  }

  lemma ShapedVersion(before: map<string, Json>, spec: Json, history: seq<Artifact>)
    requires Shaped(before, spec, history)
    ensures FieldAt(spec.fields, "version") ==
              match LastVersion(history)
              case Some(v) => Some(Str(FormatInt(v)))
              case None => FieldAt(before, "version")
  {
    if history != [] { LastReleaseRules(history, "version"); }
    assert MostRecent(history, "version").Some? <==> history != [];
  }

  /** After any run, spec.version is the version that last reached the resource, if any has. */
  lemma SpecFollowsTheLastReach(c0: State, events: seq<Event>, digest: Digest, n: string, env: Env)
    requires AllObjects(c0) && n in c0.crds
    ensures var reached := LastReached(events, digest, c0, n, env);
            SpecVersion(ClusterAfter(c0, events, digest, env), n) ==
              if reached.Some? then Some(Str(FormatInt(reached.value))) else SpecVersion(c0, n)
  {
    var attempts := Attempts(events, digest);
    HistoryEndsAtTheLastReach(events, digest, c0, n, env);
    HistoryShapes(c0, attempts, n, env);
    ShapedVersion(c0.crds[n].fields, Deploys.After(c0, attempts, env).crds[n], History(c0, attempts, n, env));
  }

  lemma HistoryShapes(c0: State, attempts: seq<Attempt>, n: string, env: Env)
    requires AllObjects(c0) && n in c0.crds
    ensures var c := Deploys.After(c0, attempts, env);
            n in c.crds && Shaped(c0.crds[n].fields, c.crds[n], History(c0, attempts, n, env))
  {
    SpecIsTheSumOfItsHistory(c0, attempts, env);
  }

  // ---------------------------------------------------------------- agreement

  /** The resource runs the version current.yaml names. */
  ghost predicate InStep(c0: State, events: seq<Event>, digest: Digest, dir: string, n: string, env: Env) {
    var current := CurrentVersion(FilesAfter(events, digest), dir);
    current.Some? && SpecVersion(ClusterAfter(c0, events, digest, env), n) == Some(Str(FormatInt(current.value)))
  }

  lemma NumbersPrintApart(a: int, b: int)
    ensures FormatInt(a) == FormatInt(b) <==> a == b
  {
    ParseFormatInt(a);
    ParseFormatInt(b);
  }

  /** After any run of any agents, whatever failed: the two agree exactly when the last version to become
      current is the last to have reached the resource - or, if none has, the one it started with. */
  lemma InStepExactlyWhen(c0: State, events: seq<Event>, digest: Digest, dir: string, n: string, env: Env)
    requires AllObjects(c0) && n in c0.crds
    ensures var moved, reached := LastMoved(events, digest, dir), LastReached(events, digest, c0, n, env);
            InStep(c0, events, digest, dir, n, env) <==>
              && moved.Some?
              && (if reached.Some? then reached == moved else SpecVersion(c0, n) == Some(Str(FormatInt(moved.value))))
  {
    CurrentFollowsTheLastMove(events, digest, dir);
    SpecFollowsTheLastReach(c0, events, digest, n, env);
    var moved, reached := LastMoved(events, digest, dir), LastReached(events, digest, c0, n, env);
    if moved.Some? && reached.Some? { NumbersPrintApart(moved.value, reached.value); }
  }

  lemma OneMoreMove(events: seq<Event>, e: Event, digest: Digest, dir: string)
    ensures var files := FilesAfter(events, digest);
            var moved := Moved(files, e.request, dir);
            CurrentVersion(FilesAfter(events + [e], digest), dir) ==
              if moved.Some? then moved else CurrentVersion(files, dir)
  {
    var run := events + [e];
    assert run[..|run| - 1] == events;
    CurrentFollowsTheLastMove(run, digest, dir);
    CurrentFollowsTheLastMove(events, digest, dir);
  }

  lemma OneMoreSpec(c0: State, events: seq<Event>, e: Event, digest: Digest, n: string, env: Env)
    requires AllObjects(c0) && n in c0.crds
    ensures var reaches := Reaches(FilesAfter(events, digest), e, c0, n, env);
            SpecVersion(ClusterAfter(c0, events + [e], digest, env), n) ==
              if reaches.Some? then Some(Str(FormatInt(reaches.value)))
              else SpecVersion(ClusterAfter(c0, events, digest, env), n)
  {
    var run := events + [e];
    assert run[..|run| - 1] == events;
    SpecFollowsTheLastReach(c0, run, digest, n, env);
    SpecFollowsTheLastReach(c0, events, digest, n, env);
  }

  /** One more request keeps them in step exactly when it moves both to one version, or neither, or only
      to where they are. */
  lemma StaysInStepExactlyWhen(c0: State, events: seq<Event>, e: Event, digest: Digest, dir: string, n: string,
                               env: Env)
    requires AllObjects(c0) && n in c0.crds && InStep(c0, events, digest, dir, n, env)
    ensures var files := FilesAfter(events, digest);
            var at := CurrentVersion(files, dir).value;
            InStep(c0, events + [e], digest, dir, n, env) <==>
              Moved(files, e.request, dir).Or(at) == Reaches(files, e, c0, n, env).Or(at)
  {
    var files := FilesAfter(events, digest);
    var at := CurrentVersion(files, dir).value;
    OneMoreMove(events, e, digest, dir);
    OneMoreSpec(c0, events, e, digest, n, env);
    NumbersPrintApart(Moved(files, e.request, dir).Or(at), Reaches(files, e, c0, n, env).Or(at));
  }

  /** A deploy that reaches the resource brings them into step, whatever went before. */
  lemma DeployBringsIntoStep(c0: State, events: seq<Event>, e: Event, digest: Digest, dir: string, n: string, env: Env)
    requires AllObjects(c0) && n in c0.crds
    requires e.request.Deploy? && e.request.dir == dir && Reaches(FilesAfter(events, digest), e, c0, n, env).Some?
    ensures InStep(c0, events + [e], digest, dir, n, env)
  {
    OneMoreMove(events, e, digest, dir);
    OneMoreSpec(c0, events, e, digest, n, env);
  }

  /** A release approved as it is created puts them out of step: current.yaml moves on, the cluster stays. */
  lemma CreationPutsOutOfStep(c0: State, events: seq<Event>, e: Event, digest: Digest, dir: string, n: string, env: Env)
    requires AllObjects(c0) && n in c0.crds && InStep(c0, events, digest, dir, n, env)
    requires e.request.Create? && e.request.listed && Moved(FilesAfter(events, digest), e.request, dir).Some?
    ensures !InStep(c0, events + [e], digest, dir, n, env)
  {
    StaysInStepExactlyWhen(c0, events, e, digest, dir, n, env);
    L.ReleasesAreOneToN(Requests(events), digest, dir, CurrentVersion(FilesAfter(events, digest), dir).value);
  }
}
