/** Deploying a release onto the agent's custom resource (internal/release/handler.go, applyCRD).

    The patch leaves out what the release leaves empty, so a spec is the sum of its history:
    the results say what it holds after any number of deploys, whichever of them failed, and
    when deploying an earlier release again really brings the spec back. */
module Deploys {
  import opened Options
  import opened Text
  import opened Json
  import opened Faults
  import opened MergePatch
  import opened Cluster
  import opened Artifacts
  import ReleaseLog
  import StateRepo

  /** What a release says about one field of the spec, if it says anything. */
  function Said(a: Artifact, key: string): Option<Json> {
    match key
    case "version" => Some(Str(FormatInt(a.metadata.version)))
    case "image" => Some(Str(a.runtime.image))
    case "channel" => Some(Str(a.runtime.channel))
    case "strategy" => Some(Str(a.runtime.strategy))
    case "replicas" => Some(Int(a.runtime.replicas))
    case "modelType" => SaidText(a.agent.provider)
    case "modelId" => SaidText(a.agent.modelId)
    case "systemPrompt" => SaidText(a.agent.systemPrompt)
    case "promptRef" => SaidText(a.agent.promptRef)
    case "tools" => SaidList(a.agent.tools)
    case "skills" => SaidList(a.agent.skills)
    case _ => None
  }

  function SaidText(text: string): Option<Json> {
    if text == "" then None else Some(Str(text))
  }

  function SaidList(texts: seq<string>): Option<Json> {
    if texts == [] then None else Some(Strings(texts))
  }

  // ---------------------------------------------------------------- one deploy

  function AlwaysFields(a: Artifact): map<string, Json> {
    map["version" := Str(FormatInt(a.metadata.version)), "image" := Str(a.runtime.image),
        "channel" := Str(a.runtime.channel),
        "strategy" := Str(a.runtime.strategy), "replicas" := Int(a.runtime.replicas)]
  }

  function TextsAdded(fields: map<string, Json>, a: Artifact): map<string, Json> {
    WithText(WithText(WithText(WithText(fields, "modelType", a.agent.provider), "modelId", a.agent.modelId),
                      "systemPrompt", a.agent.systemPrompt), "promptRef", a.agent.promptRef)
  }

  function ReleaseFields(a: Artifact): map<string, Json> {
    WithTexts(WithTexts(TextsAdded(AlwaysFields(a), a), "tools", a.agent.tools), "skills", a.agent.skills)
  }

  function Applied(c: State, agentName: string, a: Artifact, net: Fates, env: Env): State {
    SpecPatched(c, agentName, ReleaseFields(a), net, 0, env)
  }

  class Deployer {
    const releases: ReleaseLog.ReleaseHandler
    const writer: K8sWriter

    constructor (releases: ReleaseLog.ReleaseHandler, writer: K8sWriter)
      ensures this.releases == releases && this.writer == writer
    {
      this.releases := releases;
      this.writer := writer;
    }

    method ApplyCRD(agentName: string, a: Artifact, net: Fates)
      modifies writer
      ensures writer.cluster == Applied(old(writer.cluster), agentName, a, net, writer.env)
    {
      var fields := AlwaysFields(a);
      if a.agent.provider != "" { fields := fields["modelType" := Str(a.agent.provider)]; }
      if a.agent.modelId != "" { fields := fields["modelId" := Str(a.agent.modelId)]; }
      if a.agent.systemPrompt != "" { fields := fields["systemPrompt" := Str(a.agent.systemPrompt)]; }
      if a.agent.promptRef != "" { fields := fields["promptRef" := Str(a.agent.promptRef)]; }
      if a.agent.tools != [] { fields := fields["tools" := Strings(a.agent.tools)]; }
      if a.agent.skills != [] { fields := fields["skills" := Strings(a.agent.skills)]; }
      var _ := writer.PatchSpec(agentName, fields, net, 0);
    }

    /** Nothing reaches the cluster unless current.yaml names it first. */
    method Deploy(agentName: string, dir: string, version: int, read: bool, write: Fate, net: Fates) returns (ok: bool)
      requires releases.Valid()
      modifies releases, releases.git, writer
      ensures releases.Valid()
      ensures releases.log == ReleaseLog.Next(old(releases.log), ReleaseLog.Deploy(dir, version, read, write),
                                              releases.digest)
      ensures ok == (read && StateRepo.ReleaseFile(dir, version) in old(releases.git.files) && write == Acknowledged)
      ensures !ok ==> writer.cluster == old(writer.cluster)
      ensures ok ==> StateRepo.CurrentFile(dir) in releases.git.files
      ensures ok ==> releases.git.files[StateRepo.CurrentFile(dir)] ==
                       old(releases.git.files)[StateRepo.ReleaseFile(dir, version)]
      ensures ok ==> writer.cluster ==
                       Applied(old(writer.cluster), agentName, releases.git.files[StateRepo.CurrentFile(dir)], net,
                               writer.env)
    {
      var released := releases.HandleDeploy(dir, version, read, write);
      ok := released.Some?;
      if ok { ApplyCRD(agentName, released.value, net); }
    }
  }

  lemma TextsAreWhatIsSaid(fields: map<string, Json>, a: Artifact, key: string)
    ensures FieldAt(TextsAdded(fields, a), key) ==
              if key in {"modelType", "modelId", "systemPrompt", "promptRef"} && Said(a, key).Some? then Said(a, key)
              else FieldAt(fields, key)
  {
    var f1 := WithText(fields, "modelType", a.agent.provider);
    var f2 := WithText(f1, "modelId", a.agent.modelId);
    var f3 := WithText(f2, "systemPrompt", a.agent.systemPrompt);
    AddedField(fields, "modelType", a.agent.provider, [], key);
    AddedField(f1, "modelId", a.agent.modelId, [], key);
    AddedField(f2, "systemPrompt", a.agent.systemPrompt, [], key);
    AddedField(f3, "promptRef", a.agent.promptRef, [], key);
  }

  lemma AlwaysSaid(a: Artifact, key: string)
    ensures FieldAt(AlwaysFields(a), key) ==
              if key in {"version", "image", "channel", "strategy", "replicas"} then Said(a, key) else None
  {
  }

  lemma FieldsAreWhatIsSaid(a: Artifact, key: string)
    ensures FieldAt(ReleaseFields(a), key) == Said(a, key)
  {
    var texts := TextsAdded(AlwaysFields(a), a);
    AlwaysSaid(a, key);
    TextsAreWhatIsSaid(AlwaysFields(a), a, key);
    AddedField(texts, "tools", "", a.agent.tools, key);
    AddedField(WithTexts(texts, "tools", a.agent.tools), "skills", "", a.agent.skills, key);
  }

  /** Five fields are always there, ... */
  lemma AlwaysPatched(a: Artifact)
    ensures FieldAt(ReleaseFields(a), "version") == Some(Str(FormatInt(a.metadata.version)))
    ensures FieldAt(ReleaseFields(a), "image") == Some(Str(a.runtime.image))
    ensures FieldAt(ReleaseFields(a), "channel") == Some(Str(a.runtime.channel))
    ensures FieldAt(ReleaseFields(a), "strategy") == Some(Str(a.runtime.strategy))
    ensures FieldAt(ReleaseFields(a), "replicas") == Some(Int(a.runtime.replicas))
  {
    FieldsAreWhatIsSaid(a, "version");
    FieldsAreWhatIsSaid(a, "image");
    FieldsAreWhatIsSaid(a, "channel");
    FieldsAreWhatIsSaid(a, "strategy");
    FieldsAreWhatIsSaid(a, "replicas");
  }

  /** ... six only where the release fills them. */
  lemma PatchedWhereFilled(a: Artifact)
    ensures FieldAt(ReleaseFields(a), "modelType") ==
              if a.agent.provider == "" then None else Some(Str(a.agent.provider))
    ensures FieldAt(ReleaseFields(a), "modelId") == if a.agent.modelId == "" then None else Some(Str(a.agent.modelId))
    ensures FieldAt(ReleaseFields(a), "systemPrompt") ==
              if a.agent.systemPrompt == "" then None else Some(Str(a.agent.systemPrompt))
    ensures FieldAt(ReleaseFields(a), "promptRef") ==
              if a.agent.promptRef == "" then None else Some(Str(a.agent.promptRef))
  {
    FieldsAreWhatIsSaid(a, "modelType");
    FieldsAreWhatIsSaid(a, "modelId");
    FieldsAreWhatIsSaid(a, "systemPrompt");
    FieldsAreWhatIsSaid(a, "promptRef");
  }

  lemma ListsPatchedWhereFilled(a: Artifact)
    ensures FieldAt(ReleaseFields(a), "tools") == if a.agent.tools == [] then None else Some(Strings(a.agent.tools))
    ensures FieldAt(ReleaseFields(a), "skills") == if a.agent.skills == [] then None else Some(Strings(a.agent.skills))
  {
    FieldsAreWhatIsSaid(a, "tools");
    FieldsAreWhatIsSaid(a, "skills");
  }

  /** The patch never carries a null or a nested object, so it overwrites field by field. */
  lemma SaidIsPlain(a: Artifact, key: string)
    ensures Said(a, key).Some? ==> !Said(a, key).value.Obj? && !Said(a, key).value.Null? && key != "name"
  {
  }

  lemma PatchOverwrites(fields: map<string, Json>, a: Artifact)
    ensures MergeFields(fields, ReleaseFields(a)) == fields + ReleaseFields(a)
    ensures "name" !in ReleaseFields(a)
  {
    forall key | key in ReleaseFields(a)
      ensures !ReleaseFields(a)[key].Obj? && !ReleaseFields(a)[key].Null? && key != "name"
    {
      FieldsAreWhatIsSaid(a, key);
      SaidIsPlain(a, key);
    }
    FlatPatchOverwrites(fields, ReleaseFields(a));
  }

  // ---------------------------------------------------------------- many deploys

  /** One agent's release on its way to the cluster. */
  datatype Attempt = Attempt(agentName: string, release: Artifact, net: Fates)

  function After(c: State, attempts: seq<Attempt>, env: Env): State {
    if attempts == [] then c
    else
      var last := attempts[|attempts| - 1];
      Applied(After(c, attempts[..|attempts| - 1], env), last.agentName, last.release, last.net, env)
  }

  /** The custom resource an attempt changes, judged by the cluster as it was at the outset. */
  function Reached(c: State, agentName: string, net: Fates, env: Env): Option<string> {
    var found := FindCrdName(c, agentName, FateAt(net, 0), FateAt(net, 1), env);
    if found.None? || found.value !in c.crds || FateAt(net, 2) == Refused then None else found
  }

  /** The releases that reached one custom resource, in order. */
  function History(c: State, attempts: seq<Attempt>, n: string, env: Env): seq<Artifact> {
    if attempts == [] then []
    else
      var last, earlier := attempts[|attempts| - 1], History(c, attempts[..|attempts| - 1], n, env);
      if Reached(c, last.agentName, last.net, env) == Some(n) then earlier + [last.release] else earlier
  }

  /** What the most recent release with anything to say about a field said. */
  function MostRecent(history: seq<Artifact>, key: string): Option<Json> {
    if history == [] then None
    else
      var last := Said(history[|history| - 1], key);
      if last.Some? then last else MostRecent(history[..|history| - 1], key)
  }

  /** The spec that history turns these fields into. */
  ghost predicate Shaped(before: map<string, Json>, spec: Json, history: seq<Artifact>) {
    && spec.Obj?
    && (forall key :: FieldAt(spec.fields, key) ==
         if MostRecent(history, key).Some? then MostRecent(history, key) else FieldAt(before, key))
  }

  ghost predicate ShapedByHistory(c0: State, c: State, attempts: seq<Attempt>, env: Env)
    requires AllObjects(c0)
  {
    && c.objects == c0.objects && c.crds.Keys == c0.crds.Keys
    && forall n :: n in c0.crds ==> Shaped(c0.crds[n].fields, c.crds[n], History(c0, attempts, n, env))
  }

  lemma SaidLast(history: seq<Artifact>, a: Artifact, key: string)
    ensures MostRecent(history + [a], key) == if Said(a, key).Some? then Said(a, key) else MostRecent(history, key)
  {
  }

  lemma OneMoreRelease(before: map<string, Json>, spec: Json, history: seq<Artifact>, a: Artifact)
    requires Shaped(before, spec, history)
    ensures Shaped(before, Merge(spec, Obj(ReleaseFields(a))), history + [a])
  {
    PatchOverwrites(spec.fields, a);
    forall key ensures FieldAt(spec.fields + ReleaseFields(a), key) ==
      if MostRecent(history + [a], key).Some? then MostRecent(history + [a], key) else FieldAt(before, key)
    {
      SaidLast(history, a, key);
      FieldsAreWhatIsSaid(a, key);
    }
  }

  lemma {:induction false} NameIsNeverSaid(history: seq<Artifact>)
    ensures MostRecent(history, "name") == None
  {
    if history != [] { NameIsNeverSaid(history[..|history| - 1]); }
  }

  /** Deploys never change what an agent's name finds. */
  lemma {:induction false} DeploysKeepTheListing(listing: seq<string>, c0: State, c: State, agentName: string,
                                                 attempts: seq<Attempt>, env: Env)
    requires AllObjects(c0) && ShapedByHistory(c0, c, attempts, env)
    ensures FirstNamedLike(listing, c, agentName, env) == FirstNamedLike(listing, c0, agentName, env)
  {
    if listing != [] {
      var n := listing[0];
      if n in c0.crds {
        NameIsNeverSaid(History(c0, attempts, n, env));
        assert FieldAt(c.crds[n].fields, "name") == FieldAt(c0.crds[n].fields, "name");
      }
      DeploysKeepTheListing(listing[1..], c0, c, agentName, attempts, env);
    }
  }

  lemma DeploysReachTheSame(c0: State, c: State, agentName: string, attempts: seq<Attempt>, net: Fates, env: Env)
    requires AllObjects(c0) && ShapedByHistory(c0, c, attempts, env)
    ensures Reached(c, agentName, net, env) == Reached(c0, agentName, net, env)
  {
    DeploysKeepTheListing(env.listing, c0, c, agentName, attempts, env);
  }

  /** After any sequence of deploys, of one agent or many, whichever lookups and patches failed: every field of every
      custom resource holds what the most recent release that reached it, and was not silent
      about the field, said; all else is as it was. */
  lemma {:induction false} SpecIsTheSumOfItsHistory(c0: State, attempts: seq<Attempt>, env: Env)
    requires AllObjects(c0)
    ensures ShapedByHistory(c0, After(c0, attempts, env), attempts, env)
  {
    if attempts != [] {
      var earlier, last := attempts[..|attempts| - 1], attempts[|attempts| - 1];
      SpecIsTheSumOfItsHistory(c0, earlier, env);
      OneMoreAttempt(c0, After(c0, earlier, env), attempts, env);
    }
  }

  lemma OneMoreAttempt(c0: State, c: State, attempts: seq<Attempt>, env: Env)
    requires AllObjects(c0) && attempts != []
    requires ShapedByHistory(c0, c, attempts[..|attempts| - 1], env)
    ensures var last := attempts[|attempts| - 1];
            ShapedByHistory(c0, Applied(c, last.agentName, last.release, last.net, env), attempts, env)
  {
    var earlier, last := attempts[..|attempts| - 1], attempts[|attempts| - 1];
    DeploysReachTheSame(c0, c, last.agentName, earlier, last.net, env);
    var reached := Reached(c, last.agentName, last.net, env);
    if reached.Some? {
      OneMoreRelease(c0.crds[reached.value].fields, c.crds[reached.value],
                     History(c0, earlier, reached.value, env), last.release);
    }
  }

  /** Fields every release speaks about follow the last release to arrive. */
  lemma LastReleaseRules(history: seq<Artifact>, key: string)
    requires history != [] && key in {"version", "image", "channel", "strategy", "replicas"}
    ensures MostRecent(history, key) == Said(history[|history| - 1], key) && MostRecent(history, key).Some?
  {
  }

  // ---------------------------------------------------------------- going back

  /** Once `a` is deployed, deploying `b` and then `a` again brings the spec back exactly when `b`
      says nothing new where `a` is silent: a silent release cannot clear a field. */
  lemma GoingBackRestoresExactlyWhen(fields: map<string, Json>, a: Artifact, b: Artifact)
    ensures var once := Merge(Obj(fields), Obj(ReleaseFields(a)));
            var back := Merge(Merge(once, Obj(ReleaseFields(b))), Obj(ReleaseFields(a)));
            back == once <==>
              forall key :: Said(a, key).None? && Said(b, key).Some? ==> FieldAt(fields, key) == Said(b, key)
  {
    var fa, fb := ReleaseFields(a), ReleaseFields(b);
    PatchOverwrites(fields, a);
    PatchOverwrites(fields + fa, b);
    PatchOverwrites(fields + fa + fb, a);
    forall key ensures FieldAt(fa, key) == Said(a, key) && FieldAt(fb, key) == Said(b, key) {
      FieldsAreWhatIsSaid(a, key);
      FieldsAreWhatIsSaid(b, key);
    }
    BackExactlyWhen(fields, fa, fb);
  }

  function Overwritten(fields: map<string, Json>, fa: map<string, Json>, fb: map<string, Json>): map<string, Json> {
    fields + fa + fb + fa
  }

  lemma BackAt(fields: map<string, Json>, fa: map<string, Json>, fb: map<string, Json>, key: string)
    ensures FieldAt(Overwritten(fields, fa, fb), key) ==
              if key in fa then FieldAt(fa, key) else if key in fb then FieldAt(fb, key) else FieldAt(fields, key)
    ensures FieldAt(fields + fa, key) == if key in fa then FieldAt(fa, key) else FieldAt(fields, key)
  {
  }

  lemma SameFields(a: map<string, Json>, b: map<string, Json>)
    requires forall key :: FieldAt(a, key) == FieldAt(b, key)
    ensures a == b
  {
    assert forall key :: key in a <==> FieldAt(a, key).Some?;
    assert forall key :: key in b <==> FieldAt(b, key).Some?;
    assert forall key :: key in a ==> FieldAt(a, key) == Some(a[key]) && FieldAt(b, key) == Some(b[key]);
  }

  lemma BackExactlyWhen(fields: map<string, Json>, fa: map<string, Json>, fb: map<string, Json>)
    ensures Overwritten(fields, fa, fb) == fields + fa <==>
              forall key :: FieldAt(fa, key).None? && FieldAt(fb, key).Some? ==>
                              FieldAt(fields, key) == FieldAt(fb, key)
  {
    forall key ensures FieldAt(Overwritten(fields, fa, fb), key) == FieldAt(fields + fa, key) <==>
                         (FieldAt(fa, key).None? && FieldAt(fb, key).Some? ==> FieldAt(fields, key) == FieldAt(fb, key))
    {
      BackAt(fields, fa, fb, key);
    }
    if forall key :: FieldAt(Overwritten(fields, fa, fb), key) == FieldAt(fields + fa, key) {
      SameFields(Overwritten(fields, fa, fb), fields + fa);
    }
  }
}
