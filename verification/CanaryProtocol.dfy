/** Starting, re-weighting, promoting and rolling back a canary (internal/agent/canary_handler.go).

    Almost every cluster call may fail and be ignored, so the state between requests can be
    any mixture. The results say which runs a final rollback undoes, and what cleaning an
    agent up removes, whatever has failed on the way. */
module CanaryProtocol {
  import opened Options
  import opened Text
  import opened Json
  import opened Faults
  import opened MergePatch
  import opened Cluster
  import Artifacts

  /** The agent a request addresses: its display name, its slug and its current image. */
  datatype AgentRef = AgentRef(name: string, slug: string, image: string)

  datatype Request =
    | Start(config: map<string, Json>, version: string, weight: int, net: Fates)
    | UpdateWeight(weight: int, net: Fates)
    | Promote(net: Fates)
    | Rollback(net: Fates)

  // ---------------------------------------------------------------- what each request does

  function ClampedWeight(weight: int): int {
    if weight < 1 || weight > 50 then 10 else weight
  }

  function CanarySpec(version: string, weight: int): Json {
    Obj(map["enabled" := Bool(true), "weight" := Int(weight), "version" := Str(version)])
  }

  function CanaryPatch(canary: Json): map<string, Json> { map["canary" := canary] }

  function Started(c: State, ag: AgentRef, config: map<string, Json>, version: string, weight: int, net: Fates,
                   env: Env): State
  {
    var w := ClampedWeight(weight);
    var patched := SpecPatched(c, ag.name, CanaryPatch(CanarySpec(version, w)), net, 0, env);
    var deployed := CanaryDeployed(patched, ag.slug, config, net, 3, env);
    if !DeployOk(patched, ag.slug, net, 3, env) then deployed else Exposed(deployed, ag.slug, w, net, env)
  }

  function Exposed(c: State, slug: string, w: int, net: Fates, env: Env): State {
    TrafficSplit(Served(c, slug, FateAt(net, 7), env), slug, 100 - w, w, net, 8, env)
  }

  function Served(c: State, slug: string, fate: Fate, env: Env): State {
    Created(c, CanaryService(slug), Object(slug, Endpoints(slug, "canary", 8000)), fate, env)
  }

  function Reweighted(c: State, ag: AgentRef, weight: int, net: Fates, env: Env): State {
    if weight < 1 || weight > 99 then c
    else
      var patched := SpecPatched(c, ag.name, CanaryPatch(Obj(map["weight" := Int(weight)])), net, 0, env);
      if !PatchOk(c, ag.name, net, 0, env) then patched
      else TrafficSplit(patched, ag.name, 100 - weight, weight, net, 3, env)
  }

  /** Promote and Rollback make the same changes. */
  function Ended(c: State, ag: AgentRef, net: Fates, env: Env): State {
    SpecPatched(CanaryDeleted(TrafficSplitDeleted(c, ag.slug, net, 0), ag.slug, net, 2), ag.name, CanaryPatch(Null),
                net, 5, env)
  }

  function Next(c: State, r: Request, ag: AgentRef, env: Env): State {
    match r
    case Start(config, version, weight, net) => Started(c, ag, config, version, weight, net, env)
    case UpdateWeight(weight, net) => Reweighted(c, ag, weight, net, env)
    case Promote(net) => Ended(c, ag, net, env)
    case Rollback(net) => Ended(c, ag, net, env)
  }

  function After(c: State, requests: seq<Request>, ag: AgentRef, env: Env): State {
    if requests == [] then c
    else Next(After(c, requests[..|requests| - 1], ag, env), requests[|requests| - 1], ag, env)
  }

  // ---------------------------------------------------------------- the handler

  /** parseReleaseConfig: what a canary takes over from a release. */
  function ReleaseConfig(a: Artifacts.Artifact): map<string, Json> {
    var c0 := map["modelType" := Str(a.agent.provider), "modelId" := Str(a.agent.modelId),
                  "systemPrompt" := Str(a.agent.systemPrompt)];
    var c1 := WithText(WithText(c0, "promptRef", a.agent.promptRef), "image", a.runtime.image);
    var c2 := WithText(WithText(c1, "channel", a.runtime.channel), "strategy", a.runtime.strategy);
    WithTexts(WithTexts(c2, "tools", a.agent.tools), "skills", a.agent.skills)
  }

  function ChallengerConfig(a: Artifacts.Artifact, version: int, image: string): map<string, Json> {
    var cfg := ReleaseConfig(a)["version" := Str(FormatInt(version))];
    if image != "" then cfg["image" := Str(image)] else cfg
  }

  /** The challenger's release file: read, not there or not understood, or not looked for because
      no reader is configured. */
  datatype ReleaseSource = Readable(artifact: Artifacts.Artifact) | Unreadable | NoReader

  /** Without a reader the challenger runs with the stable settings under no version. */
  function StartRequest(release: ReleaseSource, version: int, image: string, weight: int, net: Fates): Request
    requires !release.Unreadable?
  {
    if release.Readable? then Start(ChallengerConfig(release.artifact, version, image), FormatInt(version), weight, net)
    else Start(if image != "" then map["image" := Str(image)] else map[], "", weight, net)
  }

  class CanaryHandler {
    const writer: K8sWriter

    constructor (writer: K8sWriter)
      ensures this.writer == writer
    {
      this.writer := writer;
    }

    method StartCanary(ag: AgentRef, challengerVersion: int, weight: int, release: ReleaseSource, net: Fates)
        returns (ok: bool)
      modifies writer
      ensures challengerVersion <= 0 || release.Unreadable? ==> !ok && writer.cluster == old(writer.cluster)
      ensures challengerVersion > 0 && !release.Unreadable? ==>
                && ok == CreateOk(old(writer.cluster), CanaryPod(ag.slug), FateAt(net, 6), writer.env)
                && var r := StartRequest(release, challengerVersion, ag.image, weight, net);
                   writer.cluster == Next(old(writer.cluster), r, ag, writer.env)
    {
      if challengerVersion <= 0 { return false; }
      if release.Unreadable? { return false; }
      var config, version := map[], "";
      if release.Readable? {
        config := ParseReleaseConfig(release.artifact);
        version := FormatInt(challengerVersion);
        config := config["version" := Str(version)];
      }
      if ag.image != "" { config := config["image" := Str(ag.image)]; }
      ok := RollOut(ag, config, version, weight, net);
    }

    method ParseReleaseConfig(a: Artifacts.Artifact) returns (cfg: map<string, Json>)
      ensures cfg == ReleaseConfig(a)
    {
      cfg := map["modelType" := Str(a.agent.provider), "modelId" := Str(a.agent.modelId),
                  "systemPrompt" := Str(a.agent.systemPrompt)];
      if a.agent.promptRef != "" { cfg := cfg["promptRef" := Str(a.agent.promptRef)]; }
      if a.runtime.image != "" { cfg := cfg["image" := Str(a.runtime.image)]; }
      if a.runtime.channel != "" { cfg := cfg["channel" := Str(a.runtime.channel)]; }
      if a.runtime.strategy != "" { cfg := cfg["strategy" := Str(a.runtime.strategy)]; }
      if a.agent.tools != [] { cfg := cfg["tools" := Strings(a.agent.tools)]; }
      if a.agent.skills != [] { cfg := cfg["skills" := Strings(a.agent.skills)]; }
    }

    method RollOut(ag: AgentRef, config: map<string, Json>, version: string, weight: int, net: Fates) returns (ok: bool)
      modifies writer
      ensures writer.cluster == Started(old(writer.cluster), ag, config, version, weight, net, writer.env)
      ensures ok == CreateOk(old(writer.cluster), CanaryPod(ag.slug), FateAt(net, 6), writer.env)
    {
      var w := weight;
      if w < 1 || w > 50 { w := 10; }
      var _ := writer.PatchSpec(ag.name, CanaryPatch(CanarySpec(version, w)), net, 0);
      ok := writer.CreateCanaryDeployment(ag.slug, config, net, 3);
      if !ok { return; }
      Expose(ag.slug, w, net);
    }

    method Expose(slug: string, w: int, net: Fates)
      modifies writer
      ensures writer.cluster == Exposed(old(writer.cluster), slug, w, net, writer.env)
    {
      var _ := writer.CreateService(slug + "-canary", slug, "canary", 8000, FateAt(net, 7));
      var _ := writer.ApplyTrafficSplit(slug, 100 - w, w, net, 8);
    }

    method UpdateCanaryWeight(ag: AgentRef, weight: int, net: Fates) returns (ok: bool)
      modifies writer
      ensures writer.cluster == Next(old(writer.cluster), UpdateWeight(weight, net), ag, writer.env)
      ensures weight < 1 || weight > 99 ==> writer.cluster == old(writer.cluster)
      ensures ok == (1 <= weight <= 99 && PatchOk(old(writer.cluster), ag.name, net, 0, writer.env))
    {
      if weight < 1 || weight > 99 { return false; }
      ok := writer.PatchSpec(ag.name, CanaryPatch(Obj(map["weight" := Int(weight)])), net, 0);
      if !ok { return; }
      var _ := writer.ApplyTrafficSplit(ag.name, 100 - weight, weight, net, 3);
    }

    method PromoteCanary(ag: AgentRef, net: Fates)
      modifies writer
      ensures writer.cluster == Next(old(writer.cluster), Promote(net), ag, writer.env)
    {
      writer.DeleteTrafficSplit(ag.slug, net, 0);
      var _ := writer.DeleteCanaryDeployment(ag.slug, net, 2);
      var _ := writer.PatchSpec(ag.name, CanaryPatch(Null), net, 5);
    }

    method RollbackCanary(ag: AgentRef, net: Fates)
      modifies writer
      ensures writer.cluster == Next(old(writer.cluster), Rollback(net), ag, writer.env)
    {
      writer.DeleteTrafficSplit(ag.slug, net, 0);
      var _ := writer.DeleteCanaryDeployment(ag.slug, net, 2);
      var _ := writer.PatchSpec(ag.name, CanaryPatch(Null), net, 5);
    }
  }

  // ---------------------------------------------------------------- what a run can touch

  function Footprint(slug: string): set<Key> {
    {CanaryPod(slug), CanaryConfig(slug), CanaryService(slug), SplitRoute(slug), SplitRule(slug)}
  }

  /** The custom resources a patch addressed to this agent can reach: the one named like it,
      and the one its spec.name finds when that lookup fails. */
  function Direct(c: State, ag: AgentRef): set<string> {
    if ToLower(ag.name) in c.crds then {ToLower(ag.name)} else {}
  }

  function Listed(c: State, ag: AgentRef, env: Env): set<string> {
    match FirstNamedLike(env.listing, c, ag.name, env)
    case Some(t) => {t}
    case None => {}
  }

  function Targets(c: State, ag: AgentRef, env: Env): set<string> { Direct(c, ag) + Listed(c, ag, env) }

  /** No canary is about: the canary names are free and no resource in reach has a canary field.
      A name the cluster rejects is not in use. */
  ghost predicate Clean(c: State, ag: AgentRef, env: Env) {
    && AllObjects(c)
    && Footprint(ag.slug) !! c.objects.Keys
    && (!env.accepts(ag.name) ==> SplitRule(ag.name) !in c.objects)
    && (forall t :: t in Targets(c, ag, env) ==> t in c.crds && "canary" !in c.crds[t].fields)
  }

  function At(c: State, k: Key): Option<Object> {
    if k in c.objects then Some(c.objects[k]) else None
  }

  /** Under the five names everything is labelled for the slug; elsewhere nothing has changed. */
  ghost predicate Tidy(c0: State, c: State, slug: string) {
    forall k :: if k in Footprint(slug) then At(c, k).None? || At(c, k).value.owner == slug else At(c, k) == At(c0, k)
  }

  /** The same resources, all with objects for specs; those in reach may differ in the canary field. */
  ghost predicate SameButCanary(before: map<string, Json>, after: map<string, Json>, targets: set<string>) {
    && after.Keys == before.Keys
    && (forall n :: n in after ==> before[n].Obj? && after[n].Obj?)
    && (forall n :: n in after ==> if n in targets then after[n].fields - {"canary"} == before[n].fields - {"canary"}
                                   else after[n] == before[n])
  }

  ghost predicate Inside(c0: State, c: State, ag: AgentRef, env: Env) {
    Tidy(c0, c, ag.slug) && SameButCanary(c0.crds, c.crds, Targets(c0, ag, env))
  }

  lemma ListingIsStable(listing: seq<string>, c0: State, c: State, ag: AgentRef, env: Env, targets: set<string>)
    requires SameButCanary(c0.crds, c.crds, targets)
    ensures FirstNamedLike(listing, c, ag.name, env) == FirstNamedLike(listing, c0, ag.name, env)
  {
    if listing != [] {
      var n := listing[0];
      if n in c.crds && n in targets {
        assert Field(c.crds[n].fields, "name") == Field(c.crds[n].fields - {"canary"}, "name");
        assert Field(c0.crds[n].fields, "name") == Field(c0.crds[n].fields - {"canary"}, "name");
      }
      ListingIsStable(listing[1..], c0, c, ag, env, targets);
    }
  }

  lemma FoundIsATarget(c0: State, c: State, get: Fate, list: Fate, ag: AgentRef, env: Env)
    requires SameButCanary(c0.crds, c.crds, Targets(c0, ag, env))
    ensures var found := FindCrdName(c, ag.name, get, list, env);
            && (found.Some? ==> found.value in Targets(c0, ag, env))
            && found == FindCrdName(c0, ag.name, get, list, env)
  {
    ListingIsStable(env.listing, c0, c, ag, env, Targets(c0, ag, env));
  }

  lemma CanaryPatchKeepsTheRest(c0: State, c: State, t: string, canary: Json, targets: set<string>)
    requires SameButCanary(c0.crds, c.crds, targets) && t in targets && t in c.crds
    ensures SameButCanary(c0.crds, PatchedAt(c, t, CanaryPatch(canary)).crds, targets)
  {
    var fields := MergeFields(c.crds[t].fields, CanaryPatch(canary));
    assert fields - {"canary"} == c.crds[t].fields - {"canary"};
    assert PatchedAt(c, t, CanaryPatch(canary)).crds == c.crds[t := Obj(fields)];
  }

  lemma CanaryPatchesStayInside(c0: State, c: State, canary: Json, net: Fates, i: nat, ag: AgentRef, env: Env)
    requires Inside(c0, c, ag, env)
    ensures Inside(c0, SpecPatched(c, ag.name, CanaryPatch(canary), net, i, env), ag, env)
    ensures PatchOk(c, ag.name, net, i, env) ==> Targets(c0, ag, env) != {}
  {
    FoundIsATarget(c0, c, FateAt(net, i), FateAt(net, i + 1), ag, env);
    var found := FindCrdName(c, ag.name, FateAt(net, i), FateAt(net, i + 1), env);
    if found.Some? && found.value in c.crds {
      CanaryPatchKeepsTheRest(c0, c, found.value, canary, Targets(c0, ag, env));
    }
  }

  lemma UpsertsStayTidy(c0: State, c: State, key: Key, o: Object, get: Fate, write: Fate, slug: string, env: Env)
    requires Tidy(c0, c, slug) && key in Footprint(slug) && o.owner == slug
    ensures Tidy(c0, Upserted(c, key, o, get, write, env), slug)
    ensures Upserted(c, key, o, get, write, env).crds == c.crds
    ensures Tidy(c0, Created(c, key, o, write, env), slug)
    ensures Created(c, key, o, write, env).crds == c.crds
    ensures Tidy(c0, Removed(c, key, write), slug)
    ensures Removed(c, key, write).crds == c.crds
  {
  }

  lemma SplitStaysTidy(c0: State, c: State, stable: int, canary: int, net: Fates, i: nat, slug: string, env: Env)
    requires Tidy(c0, c, slug)
    ensures Tidy(c0, TrafficSplit(c, slug, stable, canary, net, i, env), slug)
    ensures TrafficSplit(c, slug, stable, canary, net, i, env).crds == c.crds
  {
  }

  lemma StartStaysInside(c0: State, c: State, r: Request, ag: AgentRef, env: Env)
    requires Inside(c0, c, ag, env) && r.Start?
    ensures Inside(c0, Next(c, r, ag, env), ag, env)
  {
    var w := ClampedWeight(r.weight);
    CanaryPatchesStayInside(c0, c, CanarySpec(r.version, w), r.net, 0, ag, env);
    var patched := SpecPatched(c, ag.name, CanaryPatch(CanarySpec(r.version, w)), r.net, 0, env);
    DeploymentStaysTidy(c0, patched, r.config, r.net, ag.slug, env);
    var deployed := CanaryDeployed(patched, ag.slug, r.config, r.net, 3, env);
    ExposureStaysTidy(c0, deployed, w, r.net, ag.slug, env);
    assert Next(c, r, ag, env) in {deployed, Exposed(deployed, ag.slug, w, r.net, env)};
  }

  lemma ExposureIsASplit(c: State, slug: string, w: int, net: Fates, env: Env)
    ensures Exposed(c, slug, w, net, env) ==
              TrafficSplit(Served(c, slug, FateAt(net, 7), env), slug, 100 - w, w, net, 8, env)
  {
  }

  lemma ExposureStaysTidy(c0: State, c: State, w: int, net: Fates, slug: string, env: Env)
    requires Tidy(c0, c, slug)
    ensures Tidy(c0, Exposed(c, slug, w, net, env), slug)
    ensures Exposed(c, slug, w, net, env).crds == c.crds
  {
    hide TrafficSplit, Created;
    var served := Served(c, slug, FateAt(net, 7), env);
    ServiceStaysTidy(c0, c, FateAt(net, 7), slug, env);
    SplitStaysTidy(c0, served, 100 - w, w, net, 8, slug, env);
    ExposureIsASplit(c, slug, w, net, env);
  }

  lemma ServiceStaysTidy(c0: State, c: State, fate: Fate, slug: string, env: Env)
    requires Tidy(c0, c, slug)
    ensures Tidy(c0, Served(c, slug, fate, env), slug)
    ensures Served(c, slug, fate, env).crds == c.crds
  {
  }

  lemma DeploymentStaysTidy(c0: State, c: State, config: map<string, Json>, net: Fates, slug: string, env: Env)
    requires Tidy(c0, c, slug)
    ensures Tidy(c0, CanaryDeployed(c, slug, config, net, 3, env), slug)
    ensures CanaryDeployed(c, slug, config, net, 3, env).crds == c.crds
  {
    var stable := Key(ConfigMap, slug + "-config");
    if stable in c.objects {
      UpsertsStayTidy(c0, c, CanaryConfig(slug), Object(slug, Data(CanaryData(DataOf(c.objects[stable]), config, env))),
                      FateAt(net, 4), FateAt(net, 5), slug, env);
    }
    var configured := CanaryConfigCreated(c, slug, config, net, 3, env);
    assert Tidy(c0, configured, slug);
    UpsertsStayTidy(c0, configured, CanaryPod(slug),
                    Object(slug, Pod(slug, "canary", CanaryImage(config), slug + "-canary-config")),
                    Refused, FateAt(net, 6), slug, env);
  }

  lemma EndStaysInside(c0: State, c: State, net: Fates, ag: AgentRef, env: Env)
    requires Inside(c0, c, ag, env)
    ensures Inside(c0, Ended(c, ag, net, env), ag, env)
  {
    var any := Object(ag.slug, Foreign(""));
    UpsertsStayTidy(c0, c, SplitRoute(ag.slug), any, Refused, FateAt(net, 0), ag.slug, env);
    var c1 := Removed(c, SplitRoute(ag.slug), FateAt(net, 0));
    UpsertsStayTidy(c0, c1, SplitRule(ag.slug), any, Refused, FateAt(net, 1), ag.slug, env);
    var c2 := Removed(c1, SplitRule(ag.slug), FateAt(net, 1));
    UpsertsStayTidy(c0, c2, CanaryPod(ag.slug), any, Refused, FateAt(net, 2), ag.slug, env);
    var c3 := Removed(c2, CanaryPod(ag.slug), FateAt(net, 2));
    UpsertsStayTidy(c0, c3, CanaryConfig(ag.slug), any, Refused, FateAt(net, 3), ag.slug, env);
    var c4 := Removed(c3, CanaryConfig(ag.slug), FateAt(net, 3));
    UpsertsStayTidy(c0, c4, CanaryService(ag.slug), any, Refused, FateAt(net, 4), ag.slug, env);
    CanaryPatchesStayInside(c0, Removed(c4, CanaryService(ag.slug), FateAt(net, 4)), Null, net, 5, ag, env);
  }

  /** Ending a canary tries each of its objects by itself: what is refused stays, whatever the others do. */
  lemma EachIsEndedByItself(c: State, ag: AgentRef, net: Fates, env: Env, k: Key)
    ensures At(Ended(c, ag, net, env), k) ==
              if k == Key(VirtualService, ag.slug) && FateAt(net, 0) != Refused then None
              else if k == Key(DestinationRule, ag.slug) && FateAt(net, 1) != Refused then None
              else if k == Key(Deployment, ag.slug + "-canary") && FateAt(net, 2) != Refused then None
              else if k == Key(ConfigMap, ag.slug + "-canary-config") && FateAt(net, 3) != Refused then None
              else if k == Key(Service, ag.slug + "-canary") && FateAt(net, 4) != Refused then None
              else At(c, k)
  {
    var c1 := Removed(c, SplitRoute(ag.slug), FateAt(net, 0));
    var c2 := Removed(c1, SplitRule(ag.slug), FateAt(net, 1));
    var c3 := Removed(c2, CanaryPod(ag.slug), FateAt(net, 2));
    var c4 := Removed(c3, CanaryConfig(ag.slug), FateAt(net, 3));
    var c5 := Removed(c4, CanaryService(ag.slug), FateAt(net, 4));
    AtRemoved(c, SplitRoute(ag.slug), FateAt(net, 0), k);
    AtRemoved(c1, SplitRule(ag.slug), FateAt(net, 1), k);
    AtRemoved(c2, CanaryPod(ag.slug), FateAt(net, 2), k);
    AtRemoved(c3, CanaryConfig(ag.slug), FateAt(net, 3), k);
    AtRemoved(c4, CanaryService(ag.slug), FateAt(net, 4), k);
    assert Ended(c, ag, net, env) == SpecPatched(c5, ag.name, CanaryPatch(Null), net, 5, env);
    PatchLeavesObjects(c5, ag.name, CanaryPatch(Null), net, 5, env);
  }

  lemma AtRemoved(c: State, key: Key, fate: Fate, k: Key)
    ensures At(Removed(c, key, fate), k) == if k == key && fate != Refused then None else At(c, k)
  {
  }

  lemma PatchLeavesObjects(c: State, agentName: string, fields: map<string, Json>, net: Fates, i: nat, env: Env)
    ensures SpecPatched(c, agentName, fields, net, i, env).objects == c.objects
  {
  }

  // ---------------------------------------------------------------- where re-weighting goes

  /** Re-weighting splits traffic under the agent's name: harmless if that is the slug, if the
      cluster rejects it as an object name, or if no custom resource answers to it. */
  ghost predicate SplitsStay(c0: State, ag: AgentRef, env: Env) {
    ag.name == ag.slug || !env.accepts(ag.name) || Targets(c0, ag, env) == {}
  }

  /** At most one custom resource is in reach. */
  ghost predicate SingleTarget(c0: State, ag: AgentRef, env: Env) {
    forall t, u :: t in Targets(c0, ag, env) && u in Targets(c0, ag, env) ==> t == u
  }

  lemma ReweightingStaysInside(c0: State, c: State, weight: int, net: Fates, ag: AgentRef, env: Env)
    requires Clean(c0, ag, env) && SplitsStay(c0, ag, env) && Inside(c0, c, ag, env)
    ensures Inside(c0, Reweighted(c, ag, weight, net, env), ag, env)
  {
    if 1 <= weight <= 99 {
      var canary := Obj(map["weight" := Int(weight)]);
      var patched := SpecPatched(c, ag.name, CanaryPatch(canary), net, 0, env);
      CanaryPatchesStayInside(c0, c, canary, net, 0, ag, env);
      if PatchOk(c, ag.name, net, 0, env) {
        SplitAfterPatchStaysInside(c0, patched, weight, net, ag.name, ag.slug, Targets(c0, ag, env), env);
      }
    }
  }

  lemma SplitAfterPatchStaysInside(c0: State, patched: State, weight: int, net: Fates, name: string, slug: string,
                                   targets: set<string>, env: Env)
    requires Tidy(c0, patched, slug) && SameButCanary(c0.crds, patched.crds, targets)
    requires name == slug || (!env.accepts(name) && SplitRule(name) !in c0.objects)
    ensures var split := TrafficSplit(patched, name, 100 - weight, weight, net, 3, env);
            Tidy(c0, split, slug) && SameButCanary(c0.crds, split.crds, targets)
  {
    hide TrafficSplit;
    NamedSplitStaysTidy(c0, patched, 100 - weight, weight, net, 3, name, slug, env);
  }

  lemma NamedSplitStaysTidy(c0: State, c: State, stable: int, canary: int, net: Fates, i: nat,
                            name: string, slug: string, env: Env)
    requires Tidy(c0, c, slug)
    requires name == slug || (!env.accepts(name) && SplitRule(name) !in c0.objects)
    ensures Tidy(c0, TrafficSplit(c, name, stable, canary, net, i, env), slug)
    ensures TrafficSplit(c, name, stable, canary, net, i, env).crds == c.crds
  {
    if name == slug {
      SplitStaysTidy(c0, c, stable, canary, net, i, slug, env);
    } else {
      assert SplitRule(name) !in Footprint(slug);
      assert At(c, SplitRule(name)) == At(c0, SplitRule(name)) == None;
      RejectedSplitIsIdle(c, name, stable, canary, net, i, env);
    }
  }

  lemma RejectedSplitIsIdle(c: State, name: string, stable: int, canary: int, net: Fates, i: nat, env: Env)
    requires !env.accepts(name) && SplitRule(name) !in c.objects
    ensures TrafficSplit(c, name, stable, canary, net, i, env) == c
  {
  }

  lemma RequestStaysInside(c0: State, c: State, r: Request, ag: AgentRef, env: Env)
    requires Clean(c0, ag, env) && SplitsStay(c0, ag, env) && Inside(c0, c, ag, env)
    ensures Inside(c0, Next(c, r, ag, env), ag, env)
  {
    match r
    case Start(_, _, _, _) => StartStaysInside(c0, c, r, ag, env);
    case UpdateWeight(weight, net) => ReweightingStaysInside(c0, c, weight, net, ag, env);
    case Promote(net) => EndStaysInside(c0, c, net, ag, env);
    case Rollback(net) => EndStaysInside(c0, c, net, ag, env);
  }

  lemma {:induction false} RunsStayInside(c0: State, requests: seq<Request>, ag: AgentRef, env: Env)
    requires Clean(c0, ag, env) && SplitsStay(c0, ag, env)
    ensures Inside(c0, After(c0, requests, ag, env), ag, env)
  {
    if requests != [] {
      RunsStayInside(c0, requests[..|requests| - 1], ag, env);
      RequestStaysInside(c0, After(c0, requests[..|requests| - 1], ag, env), requests[|requests| - 1], ag, env);
    }
  }

  // ---------------------------------------------------------------- a last rollback

  /** The run, then one rollback in which no call fails, leaves the cluster as it was. */
  ghost predicate Undone(c0: State, requests: seq<Request>, ag: AgentRef, env: Env) {
    Ended(After(c0, requests, ag, env), ag, SMOOTH, env) == c0
  }

  lemma SmoothRollbackRestores(c0: State, c: State, ag: AgentRef, env: Env)
    requires Clean(c0, ag, env) && SingleTarget(c0, ag, env) && Inside(c0, c, ag, env)
    ensures Ended(c, ag, SMOOTH, env) == c0
  {
    var bare := CanaryDeleted(TrafficSplitDeleted(c, ag.slug, SMOOTH, 0), ag.slug, SMOOTH, 2);
    TidyRemainderIsOriginal(c0, c, ag.slug);
    assert bare.objects == c.objects - Footprint(ag.slug);
    SmoothPatchRestores(c0, bare, ag, env);
  }

  lemma TidyRemainderIsOriginal(c0: State, c: State, slug: string)
    requires Tidy(c0, c, slug) && Footprint(slug) !! c0.objects.Keys
    ensures c.objects - Footprint(slug) == c0.objects
  {
  }

  lemma SmoothPatchRestores(c0: State, c: State, ag: AgentRef, env: Env)
    requires Clean(c0, ag, env) && SingleTarget(c0, ag, env)
    requires SameButCanary(c0.crds, c.crds, Targets(c0, ag, env))
    ensures SpecPatched(c, ag.name, CanaryPatch(Null), SMOOTH, 5, env).crds == c0.crds
  {
    FoundIsATarget(c0, c, Acknowledged, Acknowledged, ag, env);
    var found := FindCrdName(c, ag.name, Acknowledged, Acknowledged, env);
    if found.Some? {
      assert forall t :: t in Targets(c0, ag, env) ==> t == found.value;
      assert Targets(c0, ag, env) == {found.value};
      NullPatchRestores(c0, c, found.value);
    } else {
      assert Targets(c0, ag, env) == {};
      assert c.crds == c0.crds;
    }
  }

  lemma ClearedFields(fields: map<string, Json>, original: map<string, Json>)
    requires fields - {"canary"} == original - {"canary"} && "canary" !in original
    ensures MergeFields(fields, CanaryPatch(Null)) == original
  {
    WithoutMissing(original, "canary");
    assert MergeFields(fields, CanaryPatch(Null)) == fields - {"canary"};
  }

  lemma WithoutMissing(fields: map<string, Json>, key: string)
    requires key !in fields
    ensures fields - {key} == fields
  {
  }

  lemma PatchedCrds(c: State, t: string, fields: map<string, Json>)
    requires t in c.crds && c.crds[t].Obj?
    ensures PatchedAt(c, t, fields).crds == c.crds[t := Obj(MergeFields(c.crds[t].fields, fields))]
  {
  }

  lemma NullPatchRestores(c0: State, c: State, t: string)
    requires SameButCanary(c0.crds, c.crds, {t}) && t in c.crds && "canary" !in c0.crds[t].fields
    ensures PatchedAt(c, t, CanaryPatch(Null)).crds == c0.crds
  {
    ClearedFields(c.crds[t].fields, c0.crds[t].fields);
    PatchedCrds(c, t, CanaryPatch(Null));
  }

  lemma OneRequest(c0: State, r: Request, ag: AgentRef, env: Env)
    ensures After(c0, [r], ag, env) == Next(c0, r, ag, env)
  {
  }

  function NewSplit(name: string, weight: int): Object { Object(name, Split(name, 100 - weight, weight)) }

  /** A weight that is not the one under the agent's name already. */
  function OtherWeight(c: State, ag: AgentRef): int {
    if At(c, SplitRoute(ag.name)) == Some(NewSplit(ag.name, 1)) then 2 else 1
  }

  /** The run that goes wrong when traffic is split under a name other than the slug: whatever was under
      that name, another agent's live split included, is replaced and stays replaced. */
  lemma SplitUnderTheNameStays(c0: State, ag: AgentRef, env: Env)
    requires Clean(c0, ag, env) && !SplitsStay(c0, ag, env)
    ensures var weight := OtherWeight(c0, ag);
            var run := [UpdateWeight(weight, SMOOTH)];
            && At(After(c0, run, ag, env), SplitRoute(ag.name)) == Some(NewSplit(ag.name, weight))
            && At(c0, SplitRoute(ag.name)) != Some(NewSplit(ag.name, weight))
            && !Undone(c0, run, ag, env)
  {
    var weight := OtherWeight(c0, ag);
    OneRequest(c0, UpdateWeight(weight, SMOOTH), ag, env);
    SplitLands(c0, weight, ag, env);
    OthersSplitSurvives(Reweighted(c0, ag, weight, SMOOTH, env), SplitRoute(ag.name), SMOOTH, ag, env);
  }

  lemma SomeTargetIsPatched(c: State, canary: Json, ag: AgentRef, env: Env)
    requires Clean(c, ag, env) && Targets(c, ag, env) != {}
    ensures PatchOk(c, ag.name, SMOOTH, 0, env)
    ensures SpecPatched(c, ag.name, CanaryPatch(canary), SMOOTH, 0, env).objects == c.objects
  {
  }

  lemma RouteIsPutUp(c: State, name: string, weight: int, env: Env)
    requires env.accepts(name)
    ensures At(TrafficSplit(c, name, 100 - weight, weight, SMOOTH, 3, env), SplitRoute(name)) ==
              Some(NewSplit(name, weight))
  {
  }

  lemma SplitLands(c: State, weight: int, ag: AgentRef, env: Env)
    requires Clean(c, ag, env) && !SplitsStay(c, ag, env) && 1 <= weight <= 99
    ensures At(Reweighted(c, ag, weight, SMOOTH, env), SplitRoute(ag.name)) == Some(NewSplit(ag.name, weight))
  {
    var canary := Obj(map["weight" := Int(weight)]);
    SomeTargetIsPatched(c, canary, ag, env);
    RouteIsPutUp(SpecPatched(c, ag.name, CanaryPatch(canary), SMOOTH, 0, env), ag.name, weight, env);
  }

  lemma OthersSplitSurvives(c: State, key: Key, net: Fates, ag: AgentRef, env: Env)
    requires key in c.objects && key !in Footprint(ag.slug)
    ensures At(Ended(c, ag, net, env), key) == At(c, key)
  {
  }

  /** The run that goes wrong when two custom resources are in reach: one failed lookup sends
      the canary field to the second, and the rollback clears the first. */
  lemma SecondTargetKeepsItsCanary(c0: State, ag: AgentRef, env: Env)
    requires Clean(c0, ag, env) && !SingleTarget(c0, ag, env)
    ensures !Undone(c0, [UpdateWeight(1, [Refused])], ag, env)
  {
    OneRequest(c0, UpdateWeight(1, [Refused]), ag, env);
    SecondIsPatched(c0, ag, env);
    FirstIsCleared(Reweighted(c0, ag, 1, [Refused], env), ag, env);
  }

  lemma CanaryFieldIsThere(fields: map<string, Json>, canary: map<string, Json>)
    ensures "canary" in MergeFields(fields, CanaryPatch(Obj(canary)))
  {
  }

  /** Where two are in reach, the second is the one that spec.name finds. */
  lemma SecondIsListed(c0: State, ag: AgentRef, env: Env) returns (second: string)
    requires Clean(c0, ag, env) && !SingleTarget(c0, ag, env)
    ensures FirstNamedLike(env.listing, c0, ag.name, env) == Some(second)
    ensures second in c0.crds && "canary" !in c0.crds[second].fields
    ensures second != ToLower(ag.name) && ToLower(ag.name) in c0.crds
  {
    second := FirstNamedLike(env.listing, c0, ag.name, env).value;
    assert second in Targets(c0, ag, env);
  }

  lemma SecondIsPatched(c0: State, ag: AgentRef, env: Env)
    requires Clean(c0, ag, env) && !SingleTarget(c0, ag, env)
    ensures var second, c := FirstNamedLike(env.listing, c0, ag.name, env), Reweighted(c0, ag, 1, [Refused], env);
            && second.Some? && second.value in c.crds && second.value != ToLower(ag.name) && c.crds.Keys == c0.crds.Keys
            && second.value in c0.crds && c.crds[second.value] != c0.crds[second.value] && ToLower(ag.name) in c.crds
  {
    var second := SecondIsListed(c0, ag, env);
    var weight := map["weight" := Int(1)];
    PatchGoesToTheSecond(c0, second, Obj(weight), ag, env);
    PatchedCrds(c0, second, CanaryPatch(Obj(weight)));
    CanaryFieldIsThere(c0.crds[second].fields, weight);
    ReweightedCrds(c0, 1, [Refused], ag, env);
  }

  lemma PatchGoesToTheSecond(c0: State, second: string, canary: Json, ag: AgentRef, env: Env)
    requires FirstNamedLike(env.listing, c0, ag.name, env) == Some(second) && second in c0.crds
    ensures SpecPatched(c0, ag.name, CanaryPatch(canary), [Refused], 0, env) ==
              PatchedAt(c0, second, CanaryPatch(canary))
  {
  }

  /** Splitting traffic leaves custom resources alone. */
  lemma ReweightedCrds(c: State, weight: int, net: Fates, ag: AgentRef, env: Env)
    requires 1 <= weight <= 99
    ensures Reweighted(c, ag, weight, net, env).crds ==
              SpecPatched(c, ag.name, CanaryPatch(Obj(map["weight" := Int(weight)])), net, 0, env).crds
  {
  }

  lemma FirstIsCleared(c: State, ag: AgentRef, env: Env)
    requires ToLower(ag.name) in c.crds
    ensures forall n :: n in c.crds && n != ToLower(ag.name) ==>
              n in Ended(c, ag, SMOOTH, env).crds && Ended(c, ag, SMOOTH, env).crds[n] == c.crds[n]
  {
  }

  /** Whatever was requested and whatever failed, a last smooth rollback restores the cluster
      exactly - if and only if at most one custom resource answers to the agent and re-weighting
      cannot split traffic under a name that is not the slug. */
  lemma RollbackUndoesEveryRunExactlyWhen(c0: State, ag: AgentRef, env: Env)
    requires Clean(c0, ag, env)
    ensures (forall requests :: Undone(c0, requests, ag, env)) <==> SingleTarget(c0, ag, env) && SplitsStay(c0, ag, env)
  {
    if SingleTarget(c0, ag, env) && SplitsStay(c0, ag, env) {
      forall requests ensures Undone(c0, requests, ag, env) {
        RunsStayInside(c0, requests, ag, env);
        SmoothRollbackRestores(c0, After(c0, requests, ag, env), ag, env);
      }
    } else if !SplitsStay(c0, ag, env) {
      SplitUnderTheNameStays(c0, ag, env);
    } else {
      SecondTargetKeepsItsCanary(c0, ag, env);
    }
  }

  // ---------------------------------------------------------------- cleaning an agent up

  /** Cleaning up after the run leaves the objects that cleaning up before it would have left. */
  ghost predicate CleansUp(c0: State, requests: seq<Request>, ag: AgentRef, env: Env) {
    CleanedUp(After(c0, requests, ag, env), ag.slug, FULL_SWEEP).objects == CleanedUp(c0, ag.slug, FULL_SWEEP).objects
  }

  /** Everything any run can leave in the five kinds carries the agent's label and is swept away,
      and nothing else is - if and only if traffic cannot be split under another name. */
  lemma CleanupIsCompleteExactlyWhen(c0: State, ag: AgentRef, env: Env)
    requires Clean(c0, ag, env)
    ensures (forall requests :: CleansUp(c0, requests, ag, env)) <==> SplitsStay(c0, ag, env)
  {
    if SplitsStay(c0, ag, env) {
      forall requests ensures CleansUp(c0, requests, ag, env) {
        RunsStayInside(c0, requests, ag, env);
        InsideCleansUp(c0, After(c0, requests, ag, env), ag, env);
      }
    } else {
      SplitUnderTheNameStays(c0, ag, env);
      var run := [UpdateWeight(OtherWeight(c0, ag), SMOOTH)];
      OthersSplitIsNotSwept(After(c0, run, ag, env), SplitRoute(ag.name), ag.slug);
      SweepAddsNothing(c0, SplitRoute(ag.name), ag.slug);
      assert !CleansUp(c0, run, ag, env);
    }
  }

  lemma OthersSplitIsNotSwept(c: State, key: Key, slug: string)
    requires key in c.objects && c.objects[key].owner != slug
    ensures At(CleanedUp(c, slug, FULL_SWEEP), key) == At(c, key)
  {
  }

  lemma SweepAddsNothing(c: State, key: Key, slug: string)
    ensures var swept := At(CleanedUp(c, slug, FULL_SWEEP), key); swept.None? || swept == At(c, key)
  {
  }

  lemma SweptAlike(c0: State, c: State, slug: string, k: Key)
    requires Tidy(c0, c, slug) && Footprint(slug) !! c0.objects.Keys
    ensures At(CleanedUp(c, slug, FULL_SWEEP), k) == At(CleanedUp(c0, slug, FULL_SWEEP), k)
  {
    assert k !in Footprint(slug) ==> At(c, k) == At(c0, k);
    assert k in Footprint(slug) ==> At(c, k).None? || At(c, k).value.owner == slug;
  }

  lemma InsideCleansUp(c0: State, c: State, ag: AgentRef, env: Env)
    requires Clean(c0, ag, env) && Inside(c0, c, ag, env)
    ensures CleanedUp(c, ag.slug, FULL_SWEEP).objects == CleanedUp(c0, ag.slug, FULL_SWEEP).objects
  {
    forall k ensures At(CleanedUp(c, ag.slug, FULL_SWEEP), k) == At(CleanedUp(c0, ag.slug, FULL_SWEEP), k) {
      SweptAlike(c0, c, ag.slug, k);
    }
    SameObjects(CleanedUp(c, ag.slug, FULL_SWEEP), CleanedUp(c0, ag.slug, FULL_SWEEP));
  }

  lemma SameObjects(a: State, b: State)
    requires forall k :: At(a, k) == At(b, k)
    ensures a.objects == b.objects
  {
    assert forall k :: k in a.objects <==> At(a, k).Some?;
    assert forall k :: k in b.objects <==> At(b, k).Some?;
    assert forall k :: k in a.objects ==> At(a, k) == Some(a.objects[k]) && At(b, k) == Some(b.objects[k]);
  }

  /** However much of a sweep fails, it removes nothing labelled for another agent. */
  lemma SweepSparesOthers(c: State, slug: string, sweep: Sweep, k: Key)
    requires k in c.objects && c.objects[k].owner != slug
    ensures k in CleanedUp(c, slug, sweep).objects && CleanedUp(c, slug, sweep).objects[k] == c.objects[k]
  {
  }

  // ---------------------------------------------------------------- the weight in force

  /** canaryWeightFromSpec, as the chat proxy reads it. */
  function CanaryWeight(c: State, slug: string): int {
    if slug !in c.crds || !c.crds[slug].Obj? then 0
    else
      var canary := Field(c.crds[slug].fields, "canary");
      if !canary.Obj? || Field(canary.fields, "enabled") != Bool(true) then 0
      else match Field(canary.fields, "weight")
        case Int(i) => i
        case Float(x) => Artifacts.Truncate(x)
        case _ => 0
  }

  /** A weight counts only on an enabled canary; a fraction is cut off. */
  lemma CanaryWeightIs(c: State, slug: string)
    ensures CanaryWeight(c, slug) ==
              if slug in c.crds && c.crds[slug].Obj? && Field(c.crds[slug].fields, "canary").Obj?
                 && FieldAt(Field(c.crds[slug].fields, "canary").fields, "enabled") == Some(Bool(true))
              then
                match FieldAt(Field(c.crds[slug].fields, "canary").fields, "weight")
                case Some(Int(i)) => i
                case Some(Float(x)) => Artifacts.Truncate(x)
                case _ => 0
              else 0
  {
  }

  /** The proxy and the mesh send the same share of traffic to the canary. */
  ghost predicate RoutesAgree(c: State, slug: string, weight: int) {
    && CanaryWeight(c, slug) == weight
    && Key(VirtualService, slug) in c.objects
    && c.objects[Key(VirtualService, slug)].body == Split(slug, 100 - weight, weight)
  }

  /** The agent goes by its slug, which is a proper object name, and its resource exists. */
  ghost predicate Regular(c: State, ag: AgentRef, env: Env) {
    && ag.name == ag.slug == ToLower(ag.slug) && ag.slug in c.crds && AllObjects(c)
    && env.accepts(ag.slug) && env.accepts(ag.slug + "-canary")
  }

  lemma MergedMember(target: Json, patch: map<string, Json>, key: string)
    requires key in patch && !patch[key].Null?
    ensures var fields := if target.Obj? then target.fields else map[];
            && Merge(target, Obj(patch)).Obj?
            && Field(Merge(target, Obj(patch)).fields, key) == Merge(Field(fields, key), patch[key])
  {
  }

  lemma PatchLands(c: State, canary: Json, ag: AgentRef, env: Env)
    requires Regular(c, ag, env) && canary.Obj?
    ensures var patched := SpecPatched(c, ag.name, CanaryPatch(canary), SMOOTH, 0, env);
            && PatchOk(c, ag.name, SMOOTH, 0, env) && patched.objects == c.objects
            && ag.slug in patched.crds && patched.crds[ag.slug].Obj?
            && Field(patched.crds[ag.slug].fields, "canary") == Merge(Field(c.crds[ag.slug].fields, "canary"), canary)
  {
    var patched := SpecPatched(c, ag.name, CanaryPatch(canary), SMOOTH, 0, env);
    assert patched == PatchedAt(c, ag.slug, CanaryPatch(canary));
    MergedMember(c.crds[ag.slug], CanaryPatch(canary), "canary");
  }

  /** A smooth start puts the clamped weight in force on both sides. */
  lemma StartSetsBothRoutes(c: State, config: map<string, Json>, version: string, weight: int, ag: AgentRef, env: Env)
    requires Regular(c, ag, env) && CanaryPod(ag.slug) !in c.objects
    ensures RoutesAgree(Started(c, ag, config, version, weight, SMOOTH, env), ag.slug,
                        if 1 <= weight <= 50 then weight else 10)
  {
    var w := ClampedWeight(weight);
    var patched := SpecPatched(c, ag.name, CanaryPatch(CanarySpec(version, w)), SMOOTH, 0, env);
    PatchLands(c, CanarySpec(version, w), ag, env);
    EnabledWeightIsRead(c, patched, version, w, ag.slug);
    SmoothDeployment(patched, ag.slug, config, env);
    SmoothExposure(CanaryDeployed(patched, ag.slug, config, SMOOTH, 3, env), ag.slug, w, env);
    SmoothStart(c, patched, config, version, weight, ag, env);
  }

  lemma SmoothStart(c: State, patched: State, config: map<string, Json>, version: string, weight: int, ag: AgentRef,
                    env: Env)
    requires patched == SpecPatched(c, ag.name, CanaryPatch(CanarySpec(version, ClampedWeight(weight))), SMOOTH, 0, env)
    requires DeployOk(patched, ag.slug, SMOOTH, 3, env)
    ensures Started(c, ag, config, version, weight, SMOOTH, env) ==
              Exposed(CanaryDeployed(patched, ag.slug, config, SMOOTH, 3, env), ag.slug, ClampedWeight(weight),
                      SMOOTH, env)
  {
  }

  lemma EnabledWeightIsRead(c: State, patched: State, version: string, w: int, slug: string)
    requires slug in c.crds && c.crds[slug].Obj? && slug in patched.crds && patched.crds[slug].Obj?
    requires Field(patched.crds[slug].fields, "canary") ==
               Merge(Field(c.crds[slug].fields, "canary"), CanarySpec(version, w))
    ensures CanaryWeight(patched, slug) == w
  {
    MergedMember(Field(c.crds[slug].fields, "canary"), CanarySpec(version, w).fields, "enabled");
    MergedMember(Field(c.crds[slug].fields, "canary"), CanarySpec(version, w).fields, "weight");
  }

  lemma SmoothDeployment(c: State, slug: string, config: map<string, Json>, env: Env)
    requires CanaryPod(slug) !in c.objects && env.accepts(slug + "-canary")
    ensures CanaryDeployed(c, slug, config, SMOOTH, 3, env).crds == c.crds && DeployOk(c, slug, SMOOTH, 3, env)
    ensures CanaryWeight(CanaryDeployed(c, slug, config, SMOOTH, 3, env), slug) == CanaryWeight(c, slug)
  {
  }

  lemma SmoothExposure(c: State, slug: string, w: int, env: Env)
    requires env.accepts(slug)
    ensures var done := Exposed(c, slug, w, SMOOTH, env);
            && done.crds == c.crds && CanaryWeight(done, slug) == CanaryWeight(c, slug)
            && SplitRoute(slug) in done.objects && done.objects[SplitRoute(slug)].body == Split(slug, 100 - w, w)
  {
  }

  /** Re-weighting an enabled canary keeps the two sides together; without one the proxy stays at 0. */
  lemma ReweightingSetsBothRoutes(c: State, weight: int, ag: AgentRef, env: Env)
    requires Regular(c, ag, env) && 1 <= weight <= 99
    ensures var done := Reweighted(c, ag, weight, SMOOTH, env);
            var canary := Field(c.crds[ag.slug].fields, "canary");
            if canary.Obj? && Field(canary.fields, "enabled") == Bool(true)
            then RoutesAgree(done, ag.slug, weight) else CanaryWeight(done, ag.slug) == 0
  {
    var patch := Obj(map["weight" := Int(weight)]);
    var before := Field(c.crds[ag.slug].fields, "canary");
    PatchLands(c, patch, ag, env);
    WeightIsMerged(before, weight);
    var patched := SpecPatched(c, ag.name, CanaryPatch(patch), SMOOTH, 0, env);
    SmoothSplit(patched, ag.slug, weight, env);
    MergedWeightIsRead(before, patched, weight, ag.slug);
  }

  lemma WeightIsMerged(before: Json, weight: int)
    ensures var after := Merge(before, Obj(map["weight" := Int(weight)]));
            && after.Obj? && Field(after.fields, "weight") == Int(weight)
            && Field(after.fields, "enabled") == if before.Obj? then Field(before.fields, "enabled") else Null
  {
    MergedMember(before, map["weight" := Int(weight)], "weight");
  }

  lemma MergedWeightIsRead(before: Json, patched: State, weight: int, slug: string)
    requires slug in patched.crds && patched.crds[slug].Obj?
    requires var after := Field(patched.crds[slug].fields, "canary");
             && after.Obj? && Field(after.fields, "weight") == Int(weight)
             && Field(after.fields, "enabled") == if before.Obj? then Field(before.fields, "enabled") else Null
    ensures CanaryWeight(patched, slug) ==
              if before.Obj? && Field(before.fields, "enabled") == Bool(true) then weight else 0
  {
  }

  lemma SmoothSplit(c: State, slug: string, weight: int, env: Env)
    requires env.accepts(slug)
    ensures var done := TrafficSplit(c, slug, 100 - weight, weight, SMOOTH, 3, env);
            && done.crds == c.crds && CanaryWeight(done, slug) == CanaryWeight(c, slug)
            && SplitRoute(slug) in done.objects
            && done.objects[SplitRoute(slug)].body == Split(slug, 100 - weight, weight)
  {
  }
}
