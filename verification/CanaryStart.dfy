/** What a started canary runs with: its release's settings over the stable agent's
    (createCanaryConfigMap in internal/agent/k8s_writer.go), in a pod, behind a service and a
    traffic split (StartCanary in internal/agent/canary_handler.go). */
module CanaryStart {
  import opened Options
  import opened Text
  import opened Json
  import opened Faults
  import opened MergePatch
  import Artifacts
  import opened Cluster
  import opened CanaryProtocol

  // ---------------------------------------------------------------- what the challenger runs with

  function Variable(data: map<string, string>, name: string): Option<string> {
    if name in data then Some(data[name]) else None
  }

  /** A variable takes the release's setting, or keeps the stable one where the release has none. */
  ghost predicate Takes(data: map<string, string>, stable: map<string, string>, variable: string, setting: string) {
    Variable(data, variable) == if setting != "" then Some(setting) else Variable(stable, variable)
  }

  /** What a challenger is asked to run with, by setting; "" where the release leaves it open. */
  function Setting(a: Artifacts.Artifact, version: int, image: string, key: string): string {
    match key
    case "modelType" => a.agent.provider
    case "modelId" => a.agent.modelId
    case "systemPrompt" => a.agent.systemPrompt
    case "promptRef" => a.agent.promptRef
    case "channel" => a.runtime.channel
    case "strategy" => a.runtime.strategy
    case "image" => if image != "" then image else a.runtime.image
    case "version" => FormatInt(version)
    case _ => ""
  }

  lemma ReleaseSettings(a: Artifacts.Artifact, key: string)
    requires key !in {"tools", "skills", "version"}
    ensures StringAt(ReleaseConfig(a), key).Or("") == Setting(a, 0, "", key)
  {
    var c0 := map["modelType" := Str(a.agent.provider), "modelId" := Str(a.agent.modelId),
                  "systemPrompt" := Str(a.agent.systemPrompt)];
    var c1 := WithText(c0, "promptRef", a.agent.promptRef);
    var c2 := WithText(c1, "image", a.runtime.image);
    var c3 := WithText(c2, "channel", a.runtime.channel);
    var c4 := WithText(c3, "strategy", a.runtime.strategy);
    AddedField(c0, "promptRef", a.agent.promptRef, [], key);
    AddedField(c1, "image", a.runtime.image, [], key);
    AddedField(c2, "channel", a.runtime.channel, [], key);
    AddedField(c3, "strategy", a.runtime.strategy, [], key);
    ListsAdded(c4, a.agent.tools, a.agent.skills, key);
  }

  lemma ListsAdded(fields: map<string, Json>, tools: seq<string>, skills: seq<string>, key: string)
    requires key !in {"tools", "skills"}
    ensures StringAt(WithTexts(WithTexts(fields, "tools", tools), "skills", skills), key) == StringAt(fields, key)
  {
    AddedField(fields, "tools", "", tools, key);
    AddedField(WithTexts(fields, "tools", tools), "skills", "", skills, key);
  }

  lemma UpdatedSetting(fields: map<string, Json>, k: string, text: string, key: string)
    ensures StringAt(fields[k := Str(text)], key).Or("") == if key == k then text else StringAt(fields, key).Or("")
  {
  }

  lemma ConfigSettings(a: Artifacts.Artifact, version: int, image: string, key: string)
    requires key !in {"tools", "skills"}
    ensures StringAt(ChallengerConfig(a, version, image), key).Or("") == Setting(a, version, image, key)
  {
    var versioned := ReleaseConfig(a)["version" := Str(FormatInt(version))];
    UpdatedSetting(ReleaseConfig(a), "version", FormatInt(version), key);
    UpdatedSetting(versioned, "image", image, key);
    if key != "version" {
      ReleaseSettings(a, key);
      OtherSettings(a, version, image, key);
    }
  }

  lemma OtherSettings(a: Artifacts.Artifact, version: int, image: string, key: string)
    requires key != "version"
    ensures Setting(a, version, image, key) == if key == "image" && image != "" then image else Setting(a, 0, "", key)
  {
  }

  lemma OverlaidSetting(table: map<string, string>, stable: map<string, string>, overrides: map<string, Json>,
                        variable: string)
    requires variable in table
    ensures Takes(Overlaid(table, table.Keys, stable, overrides), stable, variable,
                  StringAt(overrides, table[variable]).Or(""))
  {
  }

  /** The two lists touch no other variable, ... */
  lemma ListsLeaveOthers(data: map<string, string>, overrides: map<string, Json>, env: Env, variable: string)
    requires variable !in {"CORAIL_SKILLS", "CORAIL_TOOLS"}
    ensures var listed := WithList(WithList(data, overrides, "skills", "CORAIL_SKILLS", env), overrides, "tools",
                                   "CORAIL_TOOLS", env);
            Variable(listed, variable) == Variable(data, variable)
  {
  }

  /** ... and the version only its own. */
  lemma DataOfVariable(stable: map<string, string>, overrides: map<string, Json>, env: Env, variable: string)
    requires variable !in {"CORAIL_SKILLS", "CORAIL_TOOLS"}
    ensures var version := StringAt(overrides, "version");
            Variable(CanaryData(stable, overrides, env), variable) ==
              if variable == "RECIF_AGENT_VERSION" && version.Some? then version
              else Variable(Overlaid(OVERRIDES, OVERRIDES.Keys, stable, overrides), variable)
  {
    var data := Overlaid(OVERRIDES, OVERRIDES.Keys, stable, overrides);
    var version := StringAt(overrides, "version");
    var versioned := if version.Some? then data["RECIF_AGENT_VERSION" := version.value] else data;
    ListsLeaveOthers(versioned, overrides, env, variable);
  }

  /** What a release asks of a variable that holds one text; "" where it leaves the variable alone. */
  function Asked(a: Artifacts.Artifact, version: int, variable: string): string {
    match variable
    case "CORAIL_MODEL_TYPE" => a.agent.provider
    case "CORAIL_MODEL_ID" => a.agent.modelId
    case "CORAIL_SYSTEM_PROMPT" => a.agent.systemPrompt
    case "CORAIL_STRATEGY" => a.runtime.strategy
    case "CORAIL_CHANNEL" => a.runtime.channel
    case "RECIF_AGENT_VERSION" => FormatInt(version)
    case _ => ""
  }

  lemma AskedIsTheSetting(a: Artifacts.Artifact, version: int, image: string, variable: string)
    requires variable in OVERRIDES
    ensures OVERRIDES[variable] !in {"tools", "skills"} && variable != "RECIF_AGENT_VERSION"
    ensures Asked(a, version, variable) == Setting(a, version, image, OVERRIDES[variable])
  {
  }

  lemma AskedOfNone(a: Artifacts.Artifact, version: int, variable: string)
    requires variable !in OVERRIDES
    ensures Asked(a, version, variable) == if variable == "RECIF_AGENT_VERSION" then FormatInt(version) else ""
  {
  }

  lemma TextVariable(stable: map<string, string>, a: Artifacts.Artifact, version: int, image: string, env: Env,
                     variable: string)
    requires variable !in {"CORAIL_SKILLS", "CORAIL_TOOLS"}
    ensures var data := CanaryData(stable, ChallengerConfig(a, version, image), env);
            Takes(data, stable, variable, Asked(a, version, variable))
  {
    if variable in OVERRIDES {
      SettingVariable(stable, a, version, image, env, variable);
    } else {
      OtherVariable(stable, a, version, image, env, variable);
    }
  }

  lemma SettingVariable(stable: map<string, string>, a: Artifacts.Artifact, version: int, image: string, env: Env,
                        variable: string)
    requires variable in OVERRIDES && variable !in {"CORAIL_SKILLS", "CORAIL_TOOLS"}
    ensures var data := CanaryData(stable, ChallengerConfig(a, version, image), env);
            Takes(data, stable, variable, Asked(a, version, variable))
  {
    var config := ChallengerConfig(a, version, image);
    AskedIsTheSetting(a, version, image, variable);
    ConfigSettings(a, version, image, OVERRIDES[variable]);
    OverlaidSetting(OVERRIDES, stable, config, variable);
    DataOfVariable(stable, config, env, variable);
  }

  /** A storage override would go into its own variable; no release brings one. */
  lemma StorageVariable(stable: map<string, string>, overrides: map<string, Json>, env: Env)
    ensures Takes(CanaryData(stable, overrides, env), stable, "CORAIL_STORAGE", StringAt(overrides, "storage").Or(""))
  {
    OverlaidSetting(OVERRIDES, stable, overrides, "CORAIL_STORAGE");
    DataOfVariable(stable, overrides, env, "CORAIL_STORAGE");
  }

  lemma OtherVariable(stable: map<string, string>, a: Artifacts.Artifact, version: int, image: string, env: Env,
                      variable: string)
    requires variable !in OVERRIDES && variable !in {"CORAIL_SKILLS", "CORAIL_TOOLS"}
    ensures var data := CanaryData(stable, ChallengerConfig(a, version, image), env);
            Takes(data, stable, variable, Asked(a, version, variable))
  {
    var config := ChallengerConfig(a, version, image);
    AskedOfNone(a, version, variable);
    ConfigSettings(a, version, image, "version");
    DataOfVariable(stable, config, env, variable);
    NotOverlaid(OVERRIDES, stable, config, variable);
    ParseFormatInt(version);
  }

  lemma NotOverlaid(table: map<string, string>, stable: map<string, string>, overrides: map<string, Json>,
                    variable: string)
    requires variable !in table
    ensures Variable(Overlaid(table, table.Keys, stable, overrides), variable) == Variable(stable, variable)
  {
  }

  /** A variable takes the release's list as JSON, or keeps the stable one where the release has none. */
  ghost predicate TakesList(data: map<string, string>, stable: map<string, string>, variable: string,
                            items: seq<string>, env: Env)
  {
    var text := env.marshal(Strings(items));
    Variable(data, variable) ==
      if items == [] || text == "" || text == "null" then Variable(stable, variable) else Some(text)
  }

  lemma ConfigLists(a: Artifacts.Artifact, version: int, image: string)
    ensures var config := ChallengerConfig(a, version, image);
            && FieldAt(config, "tools") == (if a.agent.tools == [] then None else Some(Strings(a.agent.tools)))
            && FieldAt(config, "skills") == (if a.agent.skills == [] then None else Some(Strings(a.agent.skills)))
  {
  }

  lemma ListsAreOwn(data: map<string, string>, overrides: map<string, Json>, env: Env, key: string, variable: string)
    requires (key == "tools" && variable == "CORAIL_TOOLS") || (key == "skills" && variable == "CORAIL_SKILLS")
    ensures var listed := WithList(WithList(data, overrides, "skills", "CORAIL_SKILLS", env), overrides, "tools",
                                   "CORAIL_TOOLS", env);
            Variable(listed, variable) == Variable(WithList(data, overrides, key, variable, env), variable)
  {
  }

  lemma ListTaken(data: map<string, string>, overrides: map<string, Json>, key: string, variable: string,
                  items: seq<string>, env: Env)
    requires FieldAt(overrides, key) == if items == [] then None else Some(Strings(items))
    ensures TakesList(WithList(data, overrides, key, variable, env), data, variable, items, env)
  {
  }

  lemma ListVariable(stable: map<string, string>, overrides: map<string, Json>, env: Env, key: string,
                     variable: string, items: seq<string>)
    requires (key == "tools" && variable == "CORAIL_TOOLS") || (key == "skills" && variable == "CORAIL_SKILLS")
    requires FieldAt(overrides, key) == if items == [] then None else Some(Strings(items))
    ensures TakesList(CanaryData(stable, overrides, env), stable, variable, items, env)
  {
    var data := Overlaid(OVERRIDES, OVERRIDES.Keys, stable, overrides);
    var version := StringAt(overrides, "version");
    var versioned := if version.Some? then data["RECIF_AGENT_VERSION" := version.value] else data;
    ListsAreOwn(versioned, overrides, env, key, variable);
    ListTaken(versioned, overrides, key, variable, items, env);
    NotOverlaid(OVERRIDES, stable, overrides, variable);
  }

  /** A challenger runs with its release's settings, lists and number; where the release says nothing it runs
      with the stable agent's, so a canary can never clear a setting, and it keeps the stable storage. */
  ghost predicate RunsRelease(data: map<string, string>, stable: map<string, string>, a: Artifacts.Artifact,
                              version: int, env: Env)
  {
    && (forall variable :: variable !in {"CORAIL_TOOLS", "CORAIL_SKILLS"} ==>
          Takes(data, stable, variable, Asked(a, version, variable)))
    && TakesList(data, stable, "CORAIL_TOOLS", a.agent.tools, env)
    && TakesList(data, stable, "CORAIL_SKILLS", a.agent.skills, env)
  }

  lemma ChallengerRunsItsRelease(stable: map<string, string>, a: Artifacts.Artifact, version: int, image: string,
                                 env: Env)
    ensures RunsRelease(CanaryData(stable, ChallengerConfig(a, version, image), env), stable, a, version, env)
  {
    var config := ChallengerConfig(a, version, image);
    ConfigLists(a, version, image);
    ListVariable(stable, config, env, "tools", "CORAIL_TOOLS", a.agent.tools);
    ListVariable(stable, config, env, "skills", "CORAIL_SKILLS", a.agent.skills);
    forall variable | variable !in {"CORAIL_TOOLS", "CORAIL_SKILLS"}
      ensures Takes(CanaryData(stable, config, env), stable, variable, Asked(a, version, variable))
    {
      TextVariable(stable, a, version, image, env, variable);
    }
  }

  /** The same, variable by variable: the model and the prompt, ... */
  lemma ModelVariables(data: map<string, string>, stable: map<string, string>, a: Artifacts.Artifact, version: int,
                       env: Env)
    requires RunsRelease(data, stable, a, version, env)
    ensures Takes(data, stable, "CORAIL_MODEL_TYPE", a.agent.provider)
    ensures Takes(data, stable, "CORAIL_MODEL_ID", a.agent.modelId)
    ensures Takes(data, stable, "CORAIL_SYSTEM_PROMPT", a.agent.systemPrompt)
  {
    assert Takes(data, stable, "CORAIL_MODEL_TYPE", Asked(a, version, "CORAIL_MODEL_TYPE"));
    assert Takes(data, stable, "CORAIL_MODEL_ID", Asked(a, version, "CORAIL_MODEL_ID"));
    assert Takes(data, stable, "CORAIL_SYSTEM_PROMPT", Asked(a, version, "CORAIL_SYSTEM_PROMPT"));
  }

  /** ... the strategy and the channel, the number, ... */
  lemma RuntimeVariables(data: map<string, string>, stable: map<string, string>, a: Artifacts.Artifact, version: int,
                         env: Env)
    requires RunsRelease(data, stable, a, version, env)
    ensures Takes(data, stable, "CORAIL_STRATEGY", a.runtime.strategy)
    ensures Takes(data, stable, "CORAIL_CHANNEL", a.runtime.channel)
  {
    assert Takes(data, stable, "CORAIL_STRATEGY", Asked(a, version, "CORAIL_STRATEGY"));
    assert Takes(data, stable, "CORAIL_CHANNEL", Asked(a, version, "CORAIL_CHANNEL"));
  }

  lemma VersionVariable(data: map<string, string>, stable: map<string, string>, a: Artifacts.Artifact, version: int,
                        env: Env)
    requires RunsRelease(data, stable, a, version, env)
    ensures Variable(data, "RECIF_AGENT_VERSION") == Some(FormatInt(version))
  {
    assert Takes(data, stable, "RECIF_AGENT_VERSION", Asked(a, version, "RECIF_AGENT_VERSION"));
    ParseFormatInt(version);
  }

  /** ... and everything else, the storage among it, is the stable agent's. */
  lemma OtherVariables(data: map<string, string>, stable: map<string, string>, a: Artifacts.Artifact, version: int,
                       env: Env, other: string)
    requires RunsRelease(data, stable, a, version, env)
    requires other == "CORAIL_STORAGE" ||
             other !in {"CORAIL_MODEL_TYPE", "CORAIL_MODEL_ID", "CORAIL_SYSTEM_PROMPT", "CORAIL_STRATEGY",
                        "CORAIL_CHANNEL", "CORAIL_TOOLS", "CORAIL_SKILLS", "RECIF_AGENT_VERSION"}
    ensures Variable(data, other) == Variable(stable, other)
  {
    assert Takes(data, stable, other, Asked(a, version, other));
  }

  // ---------------------------------------------------------------- a start without failures

  function StableData(c: State, slug: string): map<string, string>
    requires Key(ConfigMap, slug + "-config") in c.objects
  {
    var o := c.objects[Key(ConfigMap, slug + "-config")];
    if o.body.Data? then o.body.data else map[]
  }

  /** With the two objects that run a canary. */
  function WithPod(objects: map<Key, Object>, slug: string, data: map<string, string>, image: string):
      map<Key, Object>
  {
    objects[Key(ConfigMap, slug + "-canary-config") := Object(slug, Data(data))]
           [Key(Deployment, slug + "-canary") := Object(slug, Pod(slug, "canary", image, slug + "-canary-config"))]
  }

  /** With the three that send traffic to it. */
  function WithRoutes(objects: map<Key, Object>, slug: string, w: int): map<Key, Object> {
    objects[Key(Service, slug + "-canary") := Object(slug, Endpoints(slug, "canary", 8000))]
           [Key(DestinationRule, slug) := Object(slug, Subsets(slug))]
           [Key(VirtualService, slug) := Object(slug, Split(slug, 100 - w, w))]
  }

  lemma PodIsPutUp(c: State, slug: string, config: map<string, Json>, env: Env)
    requires CanaryPod(slug) !in c.objects && CanaryService(slug) !in c.objects
    requires env.accepts(slug + "-canary") && env.accepts(slug + "-canary-config")
               && Key(ConfigMap, slug + "-config") in c.objects
    ensures var deployed := CanaryDeployed(c, slug, config, SMOOTH, 3, env);
            && deployed.objects == WithPod(c.objects, slug, CanaryData(StableData(c, slug), config, env),
                                           StringAt(config, "image").Or("ghcr.io/recif-platform/corail:v0.1.1"))
            && CanaryService(slug) !in deployed.objects && DeployOk(c, slug, SMOOTH, 3, env)
  {
  }

  lemma RoutesArePutUp(c: State, slug: string, w: int, env: Env)
    requires CanaryService(slug) !in c.objects && env.accepts(slug) && env.accepts(slug + "-canary")
    ensures Exposed(c, slug, w, SMOOTH, env).objects == WithRoutes(c.objects, slug, w)
  {
  }

  lemma CanaryIsPutUp(c: State, config: map<string, Json>, version: string, weight: int, ag: AgentRef, env: Env)
    requires Regular(c, ag, env) && env.accepts(ag.slug + "-canary-config")
    requires CanaryPod(ag.slug) !in c.objects && CanaryService(ag.slug) !in c.objects
    requires Key(ConfigMap, ag.slug + "-config") in c.objects
    ensures Started(c, ag, config, version, weight, SMOOTH, env).objects ==
              WithRoutes(WithPod(c.objects, ag.slug, CanaryData(StableData(c, ag.slug), config, env),
                                 StringAt(config, "image").Or("ghcr.io/recif-platform/corail:v0.1.1")),
                         ag.slug, if 1 <= weight <= 50 then weight else 10)
  {
    var patched := SpecPatched(c, ag.name, CanaryPatch(CanarySpec(version, ClampedWeight(weight))), SMOOTH, 0, env);
    PatchLands(c, CanarySpec(version, ClampedWeight(weight)), ag, env);
    CanaryIsPutUpAfterPatch(patched, ag.slug, config, ClampedWeight(weight), env);
    SmoothStart(c, patched, config, version, weight, ag, env);
  }

  lemma CanaryIsPutUpAfterPatch(c: State, slug: string, config: map<string, Json>, w: int, env: Env)
    requires env.accepts(slug) && env.accepts(slug + "-canary") && env.accepts(slug + "-canary-config")
    requires CanaryPod(slug) !in c.objects && CanaryService(slug) !in c.objects
    requires Key(ConfigMap, slug + "-config") in c.objects
    ensures DeployOk(c, slug, SMOOTH, 3, env)
    ensures Exposed(CanaryDeployed(c, slug, config, SMOOTH, 3, env), slug, w, SMOOTH, env).objects ==
              WithRoutes(WithPod(c.objects, slug, CanaryData(StableData(c, slug), config, env),
                                 StringAt(config, "image").Or("ghcr.io/recif-platform/corail:v0.1.1")), slug, w)
  {
    PodIsPutUp(c, slug, config, env);
    RoutesArePutUp(CanaryDeployed(c, slug, config, SMOOTH, 3, env), slug, w, env);
  }

  /** What a resource's canary field says. */
  ghost predicate Announces(spec: Json, version: string, weight: int) {
    && spec.Obj? && Field(spec.fields, "canary").Obj?
    && var canary := Field(spec.fields, "canary").fields;
       && Field(canary, "enabled") == Bool(true) && Field(canary, "weight") == Int(weight)
       && Field(canary, "version") == Str(version)
  }

  lemma CanaryIsAnnounced(c: State, config: map<string, Json>, version: string, weight: int, ag: AgentRef, env: Env)
    requires Regular(c, ag, env) && CanaryPod(ag.slug) !in c.objects
    ensures var done := Started(c, ag, config, version, weight, SMOOTH, env);
            ag.slug in done.crds && Announces(done.crds[ag.slug], version, if 1 <= weight <= 50 then weight else 10)
  {
    var w := ClampedWeight(weight);
    var patched := SpecPatched(c, ag.name, CanaryPatch(CanarySpec(version, w)), SMOOTH, 0, env);
    PatchLands(c, CanarySpec(version, w), ag, env);
    SpecIsMerged(Field(c.crds[ag.slug].fields, "canary"), version, w);
    SmoothDeployment(patched, ag.slug, config, env);
    SmoothExposure(CanaryDeployed(patched, ag.slug, config, SMOOTH, 3, env), ag.slug, w, env);
    SmoothStart(c, patched, config, version, weight, ag, env);
  }

  lemma SpecIsMerged(before: Json, version: string, w: int)
    ensures var after := Merge(before, CanarySpec(version, w));
            && after.Obj? && Field(after.fields, "enabled") == Bool(true)
            && Field(after.fields, "weight") == Int(w) && Field(after.fields, "version") == Str(version)
  {
    MergedMember(before, CanarySpec(version, w).fields, "enabled");
    MergedMember(before, CanarySpec(version, w).fields, "weight");
    MergedMember(before, CanarySpec(version, w).fields, "version");
  }

  lemma ChallengerImage(a: Artifacts.Artifact, version: int, image: string)
    ensures StringAt(ChallengerConfig(a, version, image), "image").Or("ghcr.io/recif-platform/corail:v0.1.1") ==
              if image != "" then image
              else if a.runtime.image != "" then a.runtime.image
              else "ghcr.io/recif-platform/corail:v0.1.1"
  {
    ConfigSettings(a, version, image, "image");
  }

  /** The canary is up: its five objects, and nothing else has changed among the objects; the agent's resource
      announces it. */
  ghost predicate IsUp(before: State, after: State, slug: string, data: map<string, string>, image: string,
                       version: string, w: int)
  {
    && slug in after.crds && Announces(after.crds[slug], version, w)
    && after.objects == WithRoutes(WithPod(before.objects, slug, data, image), slug, w)
  }

  lemma ConfigIsUp(before: State, after: State, slug: string, data: map<string, string>, image: string,
                   version: string, w: int)
    requires IsUp(before, after, slug, data, image, version, w)
    ensures var key := Key(ConfigMap, slug + "-canary-config");
            key in after.objects && after.objects[key].body == Data(data)
  {
  }

  lemma StartIsUp(c: State, config: map<string, Json>, version: string, weight: int, ag: AgentRef, env: Env)
    requires Regular(c, ag, env) && env.accepts(ag.slug + "-canary-config")
    requires Key(Deployment, ag.slug + "-canary") !in c.objects && Key(Service, ag.slug + "-canary") !in c.objects
    requires Key(ConfigMap, ag.slug + "-config") in c.objects
    ensures IsUp(c, Started(c, ag, config, version, weight, SMOOTH, env), ag.slug,
                 CanaryData(StableData(c, ag.slug), config, env),
                 StringAt(config, "image").Or("ghcr.io/recif-platform/corail:v0.1.1"), version,
                 if 1 <= weight <= 50 then weight else 10)
  {
    CanaryIsAnnounced(c, config, version, weight, ag, env);
    CanaryIsPutUp(c, config, version, weight, ag, env);
  }

  /** A start without failures, on free names, puts up the five objects of the canary and changes no other: a
      pod of the agent's image, else the release's, else the default one, with a configuration that runs the
      release, a service, and a split at the requested weight, or 10 where that is out of range. */
  lemma StartPutsUpTheCanary(c: State, a: Artifacts.Artifact, version: int, weight: int, ag: AgentRef, env: Env)
    requires Regular(c, ag, env) && env.accepts(ag.slug + "-canary-config")
    requires Key(Deployment, ag.slug + "-canary") !in c.objects && Key(Service, ag.slug + "-canary") !in c.objects
    requires Key(ConfigMap, ag.slug + "-config") in c.objects
    ensures var done := Next(c, StartRequest(Readable(a), version, ag.image, weight, SMOOTH), ag, env);
            && Key(ConfigMap, ag.slug + "-canary-config") in done.objects
            && var config := done.objects[Key(ConfigMap, ag.slug + "-canary-config")].body;
               && config.Data? && RunsRelease(config.data, StableData(c, ag.slug), a, version, env)
               && IsUp(c, done, ag.slug, config.data,
                       if ag.image != "" then ag.image
                       else if a.runtime.image != "" then a.runtime.image
                       else "ghcr.io/recif-platform/corail:v0.1.1",
                       FormatInt(version), if 1 <= weight <= 50 then weight else 10)
  {
    var config := ChallengerConfig(a, version, ag.image);
    var data := CanaryData(StableData(c, ag.slug), config, env);
    var done := Started(c, ag, config, FormatInt(version), weight, SMOOTH, env);
    StartIsUp(c, config, FormatInt(version), weight, ag, env);
    ConfigIsUp(c, done, ag.slug, data, StringAt(config, "image").Or("ghcr.io/recif-platform/corail:v0.1.1"),
               FormatInt(version), if 1 <= weight <= 50 then weight else 10);
    ChallengerImage(a, version, ag.image);
    ChallengerRunsItsRelease(StableData(c, ag.slug), a, version, ag.image, env);
  }

  /** Without a reader of releases the canary is the stable agent again, under no version. */
  lemma StartWithoutARelease(c: State, version: int, weight: int, ag: AgentRef, env: Env)
    requires Regular(c, ag, env) && env.accepts(ag.slug + "-canary-config")
    requires Key(Deployment, ag.slug + "-canary") !in c.objects && Key(Service, ag.slug + "-canary") !in c.objects
    requires Key(ConfigMap, ag.slug + "-config") in c.objects
    ensures IsUp(c, Next(c, StartRequest(NoReader, version, ag.image, weight, SMOOTH), ag, env), ag.slug,
                 StableData(c, ag.slug),
                 if ag.image != "" then ag.image else "ghcr.io/recif-platform/corail:v0.1.1", "",
                 if 1 <= weight <= 50 then weight else 10)
  {
    var config := ImageOnly(ag.image);
    StartIsUp(c, config, "", weight, ag, env);
    ImageIsOnly(StableData(c, ag.slug), ag.image, env);
    assert Next(c, StartRequest(NoReader, version, ag.image, weight, SMOOTH), ag, env) ==
           Started(c, ag, config, "", weight, SMOOTH, env);
  }

  function ImageOnly(image: string): map<string, Json> {
    if image != "" then map["image" := Str(image)] else map[]
  }

  lemma ImageIsOnly(stable: map<string, string>, image: string, env: Env)
    ensures CanaryData(stable, ImageOnly(image), env) == stable
    ensures StringAt(ImageOnly(image), "image").Or("ghcr.io/recif-platform/corail:v0.1.1") ==
              if image != "" then image else "ghcr.io/recif-platform/corail:v0.1.1"
  {
    NothingOverridden(stable, ImageOnly(image), env);
  }

  lemma NothingOverridden(stable: map<string, string>, config: map<string, Json>, env: Env)
    requires forall key :: key in config ==> key == "image"
    ensures CanaryData(stable, config, env) == stable
  {
    NothingChosen(OVERRIDES, config);
  }

  lemma NothingChosen(table: map<string, string>, config: map<string, Json>)
    requires forall key :: key in config ==> key == "image"
    requires forall e :: e in table ==> table[e] != "image"
    ensures Chosen(table, table.Keys, config) == map[]
  {
  }

  // ---------------------------------------------------------------- a start with failures

  /** Whether a write that follows a lookup goes through: over an object only if the lookup has seen it. */
  predicate GoesThrough(c: State, key: Key, lookup: Fate, env: Env) {
    if key in c.objects then lookup == Acknowledged else env.accepts(key.name)
  }

  /** The configuration is copied if the stable one can be read. */
  ghost predicate CopiesConfig(c: State, done: State, slug: string, config: map<string, Json>, net: Fates, env: Env) {
    var stable, copy := Key(ConfigMap, slug + "-config"), Key(ConfigMap, slug + "-canary-config");
    At(done, copy) ==
      if stable in c.objects && FateAt(net, 3) == Acknowledged && FateAt(net, 5) != Refused
         && GoesThrough(c, copy, FateAt(net, 4), env)
      then Some(Object(slug, Data(CanaryData(StableData(c, slug), config, env)))) else At(c, copy)
  }

  /** The pod goes up whatever became of its configuration, unless there is one already. */
  ghost predicate PutsUpPod(c: State, done: State, slug: string, config: map<string, Json>, net: Fates, env: Env) {
    var pod := Key(Deployment, slug + "-canary");
    At(done, pod) ==
      if pod !in c.objects && env.accepts(slug + "-canary") && FateAt(net, 6) != Refused
      then Some(Object(slug, Pod(slug, "canary", StringAt(config, "image").Or("ghcr.io/recif-platform/corail:v0.1.1"),
                                 slug + "-canary-config")))
      else At(c, pod)
  }

  /** Only behind an acknowledged pod come the service and the rule, and only behind an acknowledged rule the
      route. */
  ghost predicate SendsTraffic(c: State, done: State, slug: string, w: int, net: Fates, env: Env) {
    var pod, service := Key(Deployment, slug + "-canary"), Key(Service, slug + "-canary");
    var rule, route := Key(DestinationRule, slug), Key(VirtualService, slug);
    var podUp := pod !in c.objects && env.accepts(slug + "-canary") && FateAt(net, 6) == Acknowledged;
    var ruleUp := podUp && GoesThrough(c, rule, FateAt(net, 8), env) && FateAt(net, 9) == Acknowledged;
    && At(done, service) == (if podUp && service !in c.objects && FateAt(net, 7) != Refused
                             then Some(Object(slug, Endpoints(slug, "canary", 8000))) else At(c, service))
    && At(done, rule) == (if podUp && GoesThrough(c, rule, FateAt(net, 8), env) && FateAt(net, 9) != Refused
                          then Some(Object(slug, Subsets(slug))) else At(c, rule))
    && At(done, route) == (if ruleUp && GoesThrough(c, route, FateAt(net, 10), env) && FateAt(net, 11) != Refused
                           then Some(Object(slug, Split(slug, 100 - w, w))) else At(c, route))
  }

  lemma AtUpserted(c: State, key: Key, o: Object, get: Fate, write: Fate, env: Env, k: Key)
    ensures At(Upserted(c, key, o, get, write, env), k) ==
              if k == key && write != Refused && GoesThrough(c, key, get, env) then Some(o) else At(c, k)
    ensures UpsertOk(c, key, get, write, env) <==> write == Acknowledged && GoesThrough(c, key, get, env)
  {
  }

  lemma AtCreated(c: State, key: Key, o: Object, fate: Fate, env: Env, k: Key)
    ensures At(Created(c, key, o, fate, env), k) ==
              if k == key && key !in c.objects && env.accepts(key.name) && fate != Refused then Some(o) else At(c, k)
    ensures CreateOk(c, key, fate, env) <==> key !in c.objects && env.accepts(key.name) && fate == Acknowledged
  {
  }

  lemma AtConfigured(c: State, slug: string, config: map<string, Json>, net: Fates, env: Env, k: Key)
    ensures var configured := CanaryConfigCreated(c, slug, config, net, 3, env);
            && CopiesConfig(c, configured, slug, config, net, env)
            && (k != Key(ConfigMap, slug + "-canary-config") ==> At(configured, k) == At(c, k))
  {
    if Key(ConfigMap, slug + "-config") in c.objects {
      var o := Object(slug, Data(CanaryData(StableData(c, slug), config, env)));
      AtUpserted(c, CanaryConfig(slug), o, FateAt(net, 4), FateAt(net, 5), env, CanaryConfig(slug));
      AtUpserted(c, CanaryConfig(slug), o, FateAt(net, 4), FateAt(net, 5), env, k);
    }
  }

  lemma AtDeployed(c: State, slug: string, config: map<string, Json>, net: Fates, env: Env, k: Key)
    ensures var deployed := CanaryDeployed(c, slug, config, net, 3, env);
            && CopiesConfig(c, deployed, slug, config, net, env) && PutsUpPod(c, deployed, slug, config, net, env)
            && (k !in {Key(ConfigMap, slug + "-canary-config"), Key(Deployment, slug + "-canary")} ==>
                  At(deployed, k) == At(c, k))
  {
    var configured := CanaryConfigCreated(c, slug, config, net, 3, env);
    var pod := Object(slug, Pod(slug, "canary", CanaryImage(config), slug + "-canary-config"));
    AtConfigured(c, slug, config, net, env, k);
    AtConfigured(c, slug, config, net, env, CanaryPod(slug));
    AtCreated(configured, CanaryPod(slug), pod, FateAt(net, 6), env, k);
    AtCreated(configured, CanaryPod(slug), pod, FateAt(net, 6), env, CanaryPod(slug));
    AtCreated(configured, CanaryPod(slug), pod, FateAt(net, 6), env, CanaryConfig(slug));
  }

  lemma AtSplit(c: State, slug: string, w: int, net: Fates, env: Env, k: Key)
    ensures var split := TrafficSplit(c, slug, 100 - w, w, net, 8, env);
            var rule, route := Key(DestinationRule, slug), Key(VirtualService, slug);
            && At(split, rule) == (if GoesThrough(c, rule, FateAt(net, 8), env) && FateAt(net, 9) != Refused
                                   then Some(Object(slug, Subsets(slug))) else At(c, rule))
            && At(split, route) == (if GoesThrough(c, rule, FateAt(net, 8), env) && FateAt(net, 9) == Acknowledged
                                       && GoesThrough(c, route, FateAt(net, 10), env) && FateAt(net, 11) != Refused
                                    then Some(Object(slug, Split(slug, 100 - w, w))) else At(c, route))
            && (k != rule && k != route ==> At(split, k) == At(c, k))
  {
    var rule, o := SplitRule(slug), Object(slug, Subsets(slug));
    var ruled := Upserted(c, rule, o, FateAt(net, 8), FateAt(net, 9), env);
    AtUpserted(c, rule, o, FateAt(net, 8), FateAt(net, 9), env, rule);
    AtUpserted(c, rule, o, FateAt(net, 8), FateAt(net, 9), env, SplitRoute(slug));
    AtUpserted(c, rule, o, FateAt(net, 8), FateAt(net, 9), env, k);
    var p := Object(slug, Split(slug, 100 - w, w));
    AtUpserted(ruled, SplitRoute(slug), p, FateAt(net, 10), FateAt(net, 11), env, rule);
    AtUpserted(ruled, SplitRoute(slug), p, FateAt(net, 10), FateAt(net, 11), env, SplitRoute(slug));
    AtUpserted(ruled, SplitRoute(slug), p, FateAt(net, 10), FateAt(net, 11), env, k);
  }

  lemma GoesThroughAlike(c: State, d: State, key: Key, lookup: Fate, env: Env)
    requires At(c, key) == At(d, key)
    ensures GoesThrough(c, key, lookup, env) == GoesThrough(d, key, lookup, env)
  {
  }

  lemma AtExposed(c: State, slug: string, w: int, net: Fates, env: Env, k: Key)
    ensures var exposed := Exposed(c, slug, w, net, env);
            var service := Key(Service, slug + "-canary");
            var rule, route := Key(DestinationRule, slug), Key(VirtualService, slug);
            && At(exposed, service) == (if service !in c.objects && env.accepts(slug + "-canary")
                                           && FateAt(net, 7) != Refused
                                        then Some(Object(slug, Endpoints(slug, "canary", 8000))) else At(c, service))
            && At(exposed, rule) == At(TrafficSplit(c, slug, 100 - w, w, net, 8, env), rule)
            && At(exposed, route) == At(TrafficSplit(c, slug, 100 - w, w, net, 8, env), route)
            && (k !in {service, rule, route} ==> At(exposed, k) == At(c, k))
  {
    var served, o := Served(c, slug, FateAt(net, 7), env), Object(slug, Endpoints(slug, "canary", 8000));
    AtCreated(c, CanaryService(slug), o, FateAt(net, 7), env, CanaryService(slug));
    AtCreated(c, CanaryService(slug), o, FateAt(net, 7), env, SplitRule(slug));
    AtCreated(c, CanaryService(slug), o, FateAt(net, 7), env, SplitRoute(slug));
    AtCreated(c, CanaryService(slug), o, FateAt(net, 7), env, k);
    GoesThroughAlike(c, served, SplitRule(slug), FateAt(net, 8), env);
    GoesThroughAlike(c, served, SplitRoute(slug), FateAt(net, 10), env);
    AtSplit(served, slug, w, net, env, k);
    AtSplit(served, slug, w, net, env, CanaryService(slug));
    AtSplit(c, slug, w, net, env, k);
  }

  lemma DeployedLeavesRoutes(c: State, slug: string, config: map<string, Json>, net: Fates, env: Env)
    ensures var deployed := CanaryDeployed(c, slug, config, net, 3, env);
            && At(deployed, Key(Service, slug + "-canary")) == At(c, Key(Service, slug + "-canary"))
            && At(deployed, Key(DestinationRule, slug)) == At(c, Key(DestinationRule, slug))
            && At(deployed, Key(VirtualService, slug)) == At(c, Key(VirtualService, slug))
  {
    AtDeployed(c, slug, config, net, env, Key(Service, slug + "-canary"));
    AtDeployed(c, slug, config, net, env, Key(DestinationRule, slug));
    AtDeployed(c, slug, config, net, env, Key(VirtualService, slug));
  }

  lemma ExposedSendsTraffic(c: State, slug: string, config: map<string, Json>, w: int, net: Fates, env: Env)
    requires DeployOk(c, slug, net, 3, env)
    ensures var deployed := CanaryDeployed(c, slug, config, net, 3, env);
            SendsTraffic(c, Exposed(deployed, slug, w, net, env), slug, w, net, env)
  {
    var deployed := CanaryDeployed(c, slug, config, net, 3, env);
    DeployedLeavesRoutes(c, slug, config, net, env);
    GoesThroughAlike(c, deployed, SplitRule(slug), FateAt(net, 8), env);
    GoesThroughAlike(c, deployed, SplitRoute(slug), FateAt(net, 10), env);
    AtExposed(deployed, slug, w, net, env, SplitRule(slug));
    AtSplit(deployed, slug, w, net, env, SplitRule(slug));
  }

  /** What a start without its resource patch leaves of the objects. */
  function Rolled(c: State, slug: string, config: map<string, Json>, w: int, net: Fates, env: Env): State {
    var deployed := CanaryDeployed(c, slug, config, net, 3, env);
    if DeployOk(c, slug, net, 3, env) then Exposed(deployed, slug, w, net, env) else deployed
  }

  lemma RolledStepByStep(c: State, slug: string, config: map<string, Json>, w: int, net: Fates, env: Env, k: Key)
    ensures var done := Rolled(c, slug, config, w, net, env);
            && CopiesConfig(c, done, slug, config, net, env) && PutsUpPod(c, done, slug, config, net, env)
            && SendsTraffic(c, done, slug, w, net, env)
            && (k !in {Key(ConfigMap, slug + "-canary-config"), Key(Deployment, slug + "-canary"),
                       Key(Service, slug + "-canary"), Key(DestinationRule, slug), Key(VirtualService, slug)} ==>
                  At(done, k) == At(c, k))
  {
    var deployed := CanaryDeployed(c, slug, config, net, 3, env);
    AtDeployed(c, slug, config, net, env, k);
    if DeployOk(c, slug, net, 3, env) {
      ExposedSendsTraffic(c, slug, config, w, net, env);
      AtExposed(deployed, slug, w, net, env, CanaryConfig(slug));
      AtExposed(deployed, slug, w, net, env, CanaryPod(slug));
      AtExposed(deployed, slug, w, net, env, k);
    } else {
      DeployedLeavesRoutes(c, slug, config, net, env);
    }
  }

  /** Step by step, whatever fails at a start. */
  lemma StartStepByStep(c: State, config: map<string, Json>, version: string, weight: int, net: Fates, ag: AgentRef,
                        env: Env, k: Key)
    ensures var done := Next(c, Start(config, version, weight, net), ag, env);
            && CopiesConfig(c, done, ag.slug, config, net, env) && PutsUpPod(c, done, ag.slug, config, net, env)
            && SendsTraffic(c, done, ag.slug, if 1 <= weight <= 50 then weight else 10, net, env)
            && (k !in {Key(ConfigMap, ag.slug + "-canary-config"), Key(Deployment, ag.slug + "-canary"),
                       Key(Service, ag.slug + "-canary"), Key(DestinationRule, ag.slug), Key(VirtualService, ag.slug)}
                ==> At(done, k) == At(c, k))
  {
    var canary := CanaryPatch(CanarySpec(version, ClampedWeight(weight)));
    var patched := SpecPatched(c, ag.name, canary, net, 0, env);
    PatchLeavesObjects(c, ag.name, canary, net, 0, env);
    RolledStepByStep(patched, ag.slug, config, ClampedWeight(weight), net, env, k);
    StartedIsRolled(c, config, version, weight, net, ag, env);
    var done := Next(c, Start(config, version, weight, net), ag, env);
    SameFromThere(c, patched, done, ag.slug, config, net, env);
    SameTrafficFromThere(c, patched, done, ag.slug, ClampedWeight(weight), net, env);
  }

  lemma SameFromThere(c: State, d: State, done: State, slug: string, config: map<string, Json>, net: Fates, env: Env)
    requires c.objects == d.objects
    ensures CopiesConfig(c, done, slug, config, net, env) <==> CopiesConfig(d, done, slug, config, net, env)
    ensures PutsUpPod(c, done, slug, config, net, env) <==> PutsUpPod(d, done, slug, config, net, env)
  {
  }

  lemma SameTrafficFromThere(c: State, d: State, done: State, slug: string, w: int, net: Fates, env: Env)
    requires c.objects == d.objects
    ensures SendsTraffic(c, done, slug, w, net, env) <==> SendsTraffic(d, done, slug, w, net, env)
  {
  }

  lemma StartedIsRolled(c: State, config: map<string, Json>, version: string, weight: int, net: Fates, ag: AgentRef,
                        env: Env)
    ensures var w := ClampedWeight(weight);
            var patched := SpecPatched(c, ag.name, CanaryPatch(CanarySpec(version, w)), net, 0, env);
            Next(c, Start(config, version, weight, net), ag, env) == Rolled(patched, ag.slug, config, w, net, env)
  {
  }
}
