/** What a registration leaves in the cluster and what is read back from it, field by field
    (Create and agentFromCRD in internal/agent/k8s_repository.go, mergeAllFieldsIntoConfig in
    internal/agent/config_mapper.go). */
module Registration {
  import opened Options
  import opened Json
  import opened Artifacts
  import opened ConfigMapping

  // ---------------------------------------------------------------- the stored configuration

  /** The lists and the other settings of a request: its own value, else the one in its config. */
  function Own(req: CreateRequest, key: string): Option<Json> {
    match key
    case "tools" => if req.tools != [] then Some(Strings(req.tools)) else None
    case "skills" => if req.skills != [] then Some(Strings(req.skills)) else None
    case "env_secrets" => if req.envSecrets != [] then Some(Strings(req.envSecrets)) else None
    case "suggestions_provider" => if req.suggestionsProvider != "" then Some(Str(req.suggestionsProvider)) else None
    case "suggestions" => if req.suggestions != "" then Some(Str(req.suggestions)) else None
    case "judge_model" => if req.judgeModel != "" then Some(Str(req.judgeModel)) else None
    case "eval_sample_rate" => if req.evalSampleRate > 0 then Some(Float(req.evalSampleRate as real)) else None
    case _ => None
  }

  const EXTRAS := {"tools", "skills", "env_secrets", "suggestions_provider", "suggestions", "judge_model",
                   "eval_sample_rate", "knowledge_bases"}

  lemma FirstSettingsLeaveExtras(req: CreateRequest, key: string)
    requires key in EXTRAS
    ensures FieldAt(WithText(WithText(WithText(WithText(req.config, "model_type", req.modelType), "model_id",
                    req.modelId), "system_prompt", req.systemPrompt), "prompt_ref", req.promptRef), key) ==
              FieldAt(req.config, key)
  {
  }

  lemma LastSettingsLeaveExtras(cfg: map<string, Json>, req: CreateRequest, key: string)
    requires key in EXTRAS
    ensures FieldAt(WithText(WithText(WithText(WithText(cfg, "strategy", req.strategy), "channel", req.channel),
                    "storage", req.storage), "image", req.image), key) ==
              FieldAt(cfg, key)
  {
  }

  lemma SettingsLeaveExtras(req: CreateRequest, key: string)
    requires key in EXTRAS
    ensures FieldAt(WithSettings(req), key) == FieldAt(req.config, key)
  {
    FirstSettingsLeaveExtras(req, key);
    LastSettingsLeaveExtras(WithText(WithText(WithText(WithText(req.config, "model_type", req.modelType), "model_id",
                            req.modelId), "system_prompt", req.systemPrompt), "prompt_ref", req.promptRef), req, key);
  }

  lemma ListsAreAdded(cfg: map<string, Json>, req: CreateRequest, key: string)
    requires key in EXTRAS
    ensures FieldAt(WithTexts(WithTexts(WithTexts(cfg, "tools", req.tools), "skills", req.skills), "env_secrets",
                              req.envSecrets), key) ==
              if key in {"tools", "skills", "env_secrets"} && Own(req, key).Some? then Own(req, key)
              else FieldAt(cfg, key)
  {
    var c1 := WithTexts(cfg, "tools", req.tools);
    var c2 := WithTexts(c1, "skills", req.skills);
    AddedField(cfg, "tools", "", req.tools, key);
    AddedField(c1, "skills", "", req.skills, key);
    AddedField(c2, "env_secrets", "", req.envSecrets, key);
  }

  lemma NamesAreAdded(cfg: map<string, Json>, req: CreateRequest, key: string)
    requires key in EXTRAS
    ensures FieldAt(WithNames(cfg, req), key) ==
              if key in {"suggestions_provider", "suggestions", "judge_model"} && Own(req, key).Some? then Own(req, key)
              else FieldAt(cfg, key)
  {
    var c1 := WithText(cfg, "gcp_service_account", req.gcpServiceAccount);
    var c2 := WithText(c1, "suggestions_provider", req.suggestionsProvider);
    var c3 := WithText(c2, "suggestions", req.suggestions);
    AddedField(cfg, "gcp_service_account", req.gcpServiceAccount, [], key);
    AddedField(c1, "suggestions_provider", req.suggestionsProvider, [], key);
    AddedField(c2, "suggestions", req.suggestions, [], key);
    AddedField(c3, "judge_model", req.judgeModel, [], key);
  }

  lemma MergedExtra(req: CreateRequest, key: string)
    requires key in EXTRAS
    ensures FieldAt(MergedConfig(req), key) == if Own(req, key).Some? then Own(req, key) else FieldAt(req.config, key)
  {
    var cfg := WithSettings(req);
    var listed := WithTexts(WithTexts(WithTexts(cfg, "tools", req.tools), "skills", req.skills), "env_secrets",
                            req.envSecrets);
    SettingsLeaveExtras(req, key);
    ListsAreAdded(cfg, req, key);
    NamesAreAdded(listed, req, key);
  }

  lemma AccountIsMerged(req: CreateRequest)
    ensures FieldAt(MergedConfig(req), "gcp_service_account") ==
              if req.gcpServiceAccount != "" then Some(Str(req.gcpServiceAccount))
              else FieldAt(req.config, "gcp_service_account")
  {
    var key, cfg := "gcp_service_account", WithSettings(req);
    var c1 := WithTexts(cfg, "tools", req.tools);
    var c2 := WithTexts(c1, "skills", req.skills);
    AccountIsNoSetting(req);
    AddedField(cfg, "tools", "", req.tools, key);
    AddedField(c1, "skills", "", req.skills, key);
    AddedField(c2, "env_secrets", "", req.envSecrets, key);
  }

  lemma AccountIsNoSetting(req: CreateRequest)
    ensures FieldAt(WithSettings(req), "gcp_service_account") == FieldAt(req.config, "gcp_service_account")
  {
  }

  // ---------------------------------------------------------------- the resource

  /** A setting of the configuration, unless it is the empty text. */
  function NonEmpty(value: Option<Json>): Option<Json> { if value == Some(Str("")) then None else value }

  /** The stored spelling of a setting that has no default, by its name in the resource. */
  function StoredKey(crd: string): Option<string> {
    match crd
    case "modelType" => Some("model_type")
    case "modelId" => Some("model_id")
    case "systemPrompt" => Some("system_prompt")
    case "promptRef" => Some("prompt_ref")
    case "storage" => Some("storage")
    case "tools" => Some("tools")
    case "skills" => Some("skills")
    case "knowledgeBases" => Some("knowledge_bases")
    case "envSecrets" => Some("env_secrets")
    case "suggestionsProvider" => Some("suggestions_provider")
    case "suggestions" => Some("suggestions")
    case "evalSampleRate" => Some("eval_sample_rate")
    case "judgeModel" => Some("judge_model")
    case _ => None
  }

  lemma StoredKeyIsInTable(crd: string)
    requires StoredKey(crd).Some?
    ensures crd in CRD_TO_DB && CRD_TO_DB[crd] == StoredKey(crd).value
    ensures crd !in {"strategy", "channel", "image", "replicas", "name", "framework", "description", "version"}
  {
  }

  lemma DefaultsLeaveOthers(spec: map<string, Json>, key: string)
    requires key !in {"strategy", "channel", "image", "replicas"}
    ensures FieldAt(WithDefaults(spec), key) == FieldAt(spec, key)
  {
  }

  lemma BaseHoldsNames(params: CreateParams, key: string)
    ensures FieldAt(BaseSpec(params), key) ==
              match key
              case "name" => Some(Str(params.name))
              case "framework" => Some(Str(params.framework))
              case "description" => if params.description != "" then Some(Str(params.description)) else None
              case "version" => if params.version != "" then Some(Str(params.version)) else None
              case _ => None
  {
  }

  lemma NamesAreNoSettings()
    ensures "name" !in CRD_TO_DB && "framework" !in CRD_TO_DB && "description" !in CRD_TO_DB && "version" !in CRD_TO_DB
  {
  }

  lemma CopiedField(inverse: Table, base: map<string, Json>, cfg: map<string, Json>, key: string)
    ensures FieldAt(Copied(inverse, inverse.Values, base, cfg), key) ==
              if key in inverse && NonEmpty(FieldAt(cfg, inverse[key])).Some? then FieldAt(cfg, inverse[key])
              else FieldAt(base, key)
  {
  }

  lemma NamesOfSpec(params: CreateParams, key: string)
    requires key in {"name", "framework", "description", "version"}
    ensures FieldAt(SpecFor(CRD_TO_DB, params), key) == FieldAt(BaseSpec(params), key)
  {
    NamesAreNoSettings();
    CopiedField(CRD_TO_DB, BaseSpec(params), params.config, key);
    DefaultsLeaveOthers(Copied(CRD_TO_DB, CRD_TO_DB.Values, BaseSpec(params), params.config), key);
  }

  /** A setting without a default is in the resource exactly as the configuration has it, unless it is the empty
      text. */
  lemma SettingOfSpec(params: CreateParams, crd: string)
    requires StoredKey(crd).Some?
    ensures FieldAt(SpecFor(CRD_TO_DB, params), crd) == NonEmpty(FieldAt(params.config, StoredKey(crd).value))
  {
    StoredKeyIsInTable(crd);
    CopiedField(CRD_TO_DB, BaseSpec(params), params.config, crd);
    DefaultsLeaveOthers(Copied(CRD_TO_DB, CRD_TO_DB.Values, BaseSpec(params), params.config), crd);
    BaseHoldsNames(params, crd);
  }

  // ---------------------------------------------------------------- read back

  /** The request's own text, else what its config renders to, else the default. */
  function TextOr(own: string, cfg: map<string, Json>, key: string, fallback: string, render: Renderer): string {
    if own != "" then own
    else if key !in cfg || cfg[key] == Str("") || (cfg[key].Null? && fallback != "") then fallback
    else render(cfg[key])
  }

  /** The request's own list, else the one in its config. */
  function ListOr(own: seq<string>, cfg: map<string, Json>, key: string, render: Renderer): Option<seq<string>> {
    if own != [] then Some(own)
    else if key in cfg && cfg[key].Arr? then
      Some(seq(|cfg[key].items|, i requires 0 <= i < |cfg[key].items| => render(cfg[key].items[i])))
    else None
  }

  lemma ListReadBack(req: CreateRequest, params: CreateParams, crd: string, key: string, own: seq<string>,
                     render: Renderer)
    requires params.config == MergedConfig(req) && StoredKey(crd) == Some(key) && key in EXTRAS
    requires Own(req, key) == if own != [] then Some(Strings(own)) else None
    ensures FieldList(SpecFor(CRD_TO_DB, params), crd, render) == ListOr(own, req.config, key, render)
  {
    ExtrasAreStored(req, params, crd);
    ListOfField(SpecFor(CRD_TO_DB, params), crd, own, req.config, key, render);
  }

  lemma ListOfField(spec: map<string, Json>, crd: string, own: seq<string>, cfg: map<string, Json>, key: string,
                    render: Renderer)
    requires FieldAt(spec, crd) == NonEmpty(if own != [] then Some(Strings(own)) else FieldAt(cfg, key))
    ensures FieldList(spec, crd, render) == ListOr(own, cfg, key, render)
  {
    ReadList(spec, crd, render);
    if own != [] { StringsReadBack(own, render); }
  }

  lemma ReadList(spec: map<string, Json>, key: string, render: Renderer)
    ensures FieldList(spec, key, render) ==
              if FieldAt(spec, key).Some? && FieldAt(spec, key).value.Arr?
              then Some(Rendered(FieldAt(spec, key).value.items, render)) else None
  {
  }

  function Rendered(items: seq<Json>, render: Renderer): seq<string> {
    seq(|items|, i requires 0 <= i < |items| => render(items[i]))
  }

  lemma StringsReadBack(own: seq<string>, render: Renderer)
    ensures Strings(own).Arr? && Rendered(Strings(own).items, render) == own
  {
  }

  lemma TextIs(a: Agent, req: CreateRequest, render: Renderer, key: string, own: string, fallback: string)
    requires ReadText(a, key) == Expected(req, key, render)
    requires RequestText(req, key) == own && DefaultText(key) == fallback
    ensures ReadText(a, key) == TextOr(own, req.config, key, fallback, render)
  {
  }

  ghost predicate TextsRead(a: Agent, req: CreateRequest, render: Renderer) {
    forall key :: key in TEXT_SETTINGS ==> ReadText(a, key) == Expected(req, key, render)
  }

  lemma ModelTexts(a: Agent, req: CreateRequest, render: Renderer)
    requires TextsRead(a, req, render)
    ensures a.modelType == TextOr(req.modelType, req.config, "model_type", "", render)
    ensures a.modelId == TextOr(req.modelId, req.config, "model_id", "", render)
    ensures a.systemPrompt == TextOr(req.systemPrompt, req.config, "system_prompt", "", render)
    ensures a.promptRef == TextOr(req.promptRef, req.config, "prompt_ref", "", render)
  {
    TextIs(a, req, render, "model_type", req.modelType, "");
    TextIs(a, req, render, "model_id", req.modelId, "");
    TextIs(a, req, render, "system_prompt", req.systemPrompt, "");
    TextIs(a, req, render, "prompt_ref", req.promptRef, "");
  }

  lemma RuntimeTexts(a: Agent, req: CreateRequest, render: Renderer)
    requires TextsRead(a, req, render)
    ensures a.storage == TextOr(req.storage, req.config, "storage", "", render)
    ensures a.strategy == TextOr(req.strategy, req.config, "strategy", "agent-react", render)
    ensures a.channel == TextOr(req.channel, req.config, "channel", "rest", render)
    ensures a.image == TextOr(req.image, req.config, "image", "ghcr.io/recif-platform/corail:v0.1.1", render)
  {
    TextIs(a, req, render, "storage", req.storage, "");
    TextIs(a, req, render, "strategy", req.strategy, "agent-react");
    TextIs(a, req, render, "channel", req.channel, "rest");
    TextIs(a, req, render, "image", req.image, "ghcr.io/recif-platform/corail:v0.1.1");
  }

  /** The eight texts of a registered agent, with their defaults. */
  ghost predicate HasTexts(a: Agent, req: CreateRequest, render: Renderer) {
    && a.modelType == TextOr(req.modelType, req.config, "model_type", "", render)
    && a.modelId == TextOr(req.modelId, req.config, "model_id", "", render)
    && a.systemPrompt == TextOr(req.systemPrompt, req.config, "system_prompt", "", render)
    && a.promptRef == TextOr(req.promptRef, req.config, "prompt_ref", "", render)
    && a.storage == TextOr(req.storage, req.config, "storage", "", render)
    && a.strategy == TextOr(req.strategy, req.config, "strategy", "agent-react", render)
    && a.channel == TextOr(req.channel, req.config, "channel", "rest", render)
    && a.image == TextOr(req.image, req.config, "image", "ghcr.io/recif-platform/corail:v0.1.1", render)
  }

  lemma TextsReadBack(req: CreateRequest, id: string, teamId: string, createdBy: string, slug: string,
                      name: string, render: Renderer)
    ensures HasTexts(AgentFromCrd(name, CrdFor(CRD_TO_DB, ParamsFor(req, id, teamId, createdBy, slug)), render), req,
                     render)
  {
    var a := AgentFromCrd(name, CrdFor(CRD_TO_DB, ParamsFor(req, id, teamId, createdBy, slug)), render);
    forall key | key in TEXT_SETTINGS ensures ReadText(a, key) == Expected(req, key, render) {
      RegisterThenReadBack(req, id, teamId, createdBy, slug, name, render, key);
    }
    ModelTexts(a, req, render);
    RuntimeTexts(a, req, render);
  }

  /** Under the resource's name, with its id, team, names, lists and one replica. */
  ghost predicate HasNames(a: Agent, req: CreateRequest, id: string, teamId: string, name: string, render: Renderer) {
    && a.slug == name && a.id == (if id != "" then id else name) && a.teamId == teamId
    && a.name == req.name && a.framework == req.framework && a.description == req.description
    && a.version == req.version && a.replicas == 1
    && a.tools == ListOr(req.tools, req.config, "tools", render)
    && a.skills == ListOr(req.skills, req.config, "skills", render)
    && a.knowledgeBases == ListOr([], req.config, "knowledge_bases", render)
  }

  lemma NamesAreRead(name: string, crd: Crd, render: Renderer, req: CreateRequest, id: string, teamId: string)
    requires FieldAt(crd.spec, "name") == Some(Str(req.name))
    requires FieldAt(crd.spec, "framework") == Some(Str(req.framework))
    requires FieldAt(crd.spec, "description") == if req.description != "" then Some(Str(req.description)) else None
    requires FieldAt(crd.spec, "version") == if req.version != "" then Some(Str(req.version)) else None
    requires FieldAt(crd.spec, "replicas") == Some(Int(1))
    requires FieldList(crd.spec, "tools", render) == ListOr(req.tools, req.config, "tools", render)
    requires FieldList(crd.spec, "skills", render) == ListOr(req.skills, req.config, "skills", render)
    requires FieldList(crd.spec, "knowledgeBases", render) == ListOr([], req.config, "knowledge_bases", render)
    requires Annotation(crd, "recif.dev/agent-id") == id && Annotation(crd, "recif.dev/team-id") == teamId
    ensures HasNames(AgentFromCrd(name, crd, render), req, id, teamId, name, render)
  {
  }

  lemma SpecOfRequest(req: CreateRequest, params: CreateParams)
    requires params.name == req.name && params.framework == req.framework && params.description == req.description
    requires params.version == req.version
    ensures var spec := SpecFor(CRD_TO_DB, params);
            && FieldAt(spec, "name") == Some(Str(req.name))
            && FieldAt(spec, "framework") == Some(Str(req.framework))
            && FieldAt(spec, "description") == (if req.description != "" then Some(Str(req.description)) else None)
            && FieldAt(spec, "version") == (if req.version != "" then Some(Str(req.version)) else None)
            && FieldAt(spec, "replicas") == Some(Int(1))
  {
    NamesOfSpec(params, "name");
    NamesOfSpec(params, "framework");
    NamesOfSpec(params, "description");
    NamesOfSpec(params, "version");
  }

  lemma OwnersOf(params: CreateParams)
    ensures Annotation(CrdFor(CRD_TO_DB, params), "recif.dev/agent-id") == params.id
    ensures Annotation(CrdFor(CRD_TO_DB, params), "recif.dev/team-id") == params.teamId
  {
    AnnotationsOf(params, "recif.dev/agent-id");
    AnnotationsOf(params, "recif.dev/team-id");
  }

  lemma ToolsReadBack(req: CreateRequest, params: CreateParams, render: Renderer)
    requires params.config == MergedConfig(req)
    ensures FieldList(SpecFor(CRD_TO_DB, params), "tools", render) == ListOr(req.tools, req.config, "tools", render)
  {
    ListReadBack(req, params, "tools", "tools", req.tools, render);
  }

  lemma SkillsReadBack(req: CreateRequest, params: CreateParams, render: Renderer)
    requires params.config == MergedConfig(req)
    ensures FieldList(SpecFor(CRD_TO_DB, params), "skills", render) == ListOr(req.skills, req.config, "skills", render)
  {
    ListReadBack(req, params, "skills", "skills", req.skills, render);
  }

  lemma BasesReadBack(req: CreateRequest, params: CreateParams, render: Renderer)
    requires params.config == MergedConfig(req)
    ensures FieldList(SpecFor(CRD_TO_DB, params), "knowledgeBases", render) ==
              ListOr([], req.config, "knowledge_bases", render)
  {
    ListReadBack(req, params, "knowledgeBases", "knowledge_bases", [], render);
  }

  lemma NamesReadBack(req: CreateRequest, id: string, teamId: string, createdBy: string, slug: string,
                      name: string, render: Renderer)
    ensures HasNames(AgentFromCrd(name, CrdFor(CRD_TO_DB, ParamsFor(req, id, teamId, createdBy, slug)), render), req,
                     id, teamId, name, render)
  {
    var params := ParamsFor(req, id, teamId, createdBy, slug);
    SpecOfRequest(req, params);
    OwnersOf(params);
    ToolsReadBack(req, params, render);
    SkillsReadBack(req, params, render);
    BasesReadBack(req, params, render);
    NamesAreRead(name, CrdFor(CRD_TO_DB, params), render, req, id, teamId);
  }

  /** A registered agent reads back field by field as it was registered. */
  lemma RegisteredAgent(req: CreateRequest, id: string, teamId: string, createdBy: string, slug: string,
                        name: string, render: Renderer)
    ensures var a := AgentFromCrd(name, CrdFor(CRD_TO_DB, ParamsFor(req, id, teamId, createdBy, slug)), render);
            HasTexts(a, req, render) && HasNames(a, req, id, teamId, name, render)
  {
    TextsReadBack(req, id, teamId, createdBy, slug, name, render);
    NamesReadBack(req, id, teamId, createdBy, slug, name, render);
  }

  lemma AnnotatedValue(annotations: map<string, string>, key: string, value: string, other: string)
    ensures var after := Annotated(annotations, key, value);
            (if other in after then after[other] else "") ==
              if other == key && value != "" then value else if other in annotations then annotations[other] else ""
  {
  }

  /** What the resource itself says of who it belongs to. */
  lemma AnnotationsOf(params: CreateParams, key: string)
    ensures Annotation(CrdFor(CRD_TO_DB, params), key) ==
              match key
              case "recif.dev/agent-id" => params.id
              case "recif.dev/team-id" => params.teamId
              case "recif.dev/created-by" => params.createdBy
              case _ => ""
  {
    var a0: map<string, string> := map[];
    var a1 := Annotated(a0, "recif.dev/agent-id", params.id);
    var a2 := Annotated(a1, "recif.dev/team-id", params.teamId);
    AnnotatedValue(a0, "recif.dev/agent-id", params.id, key);
    AnnotatedValue(a1, "recif.dev/team-id", params.teamId, key);
    AnnotatedValue(a2, "recif.dev/created-by", params.createdBy, key);
    AnnotationIs(CrdFor(CRD_TO_DB, params), Annotations(params), key);
  }

  lemma AnnotationIs(crd: Crd, annotations: map<string, string>, key: string)
    requires crd.annotations == annotations
    ensures Annotation(crd, key) == if key in annotations then annotations[key] else ""
  {
  }

  /** The settings that are not read back into the agent are in the resource all the same: the request's own
      value, else its config's, unless that is the empty text. */
  lemma ExtrasAreStored(req: CreateRequest, params: CreateParams, crd: string)
    requires params.config == MergedConfig(req) && StoredKey(crd).Some? && StoredKey(crd).value in EXTRAS
    ensures var key := StoredKey(crd).value;
            FieldAt(SpecFor(CRD_TO_DB, params), crd) ==
              NonEmpty(if Own(req, key).Some? then Own(req, key) else FieldAt(req.config, key))
  {
    SettingOfSpec(params, crd);
    MergedExtra(req, StoredKey(crd).value);
  }

  lemma ShownAdded(spec: map<string, Json>, render: Renderer, key: string)
    ensures FieldAt(CompatConfig(spec, render), key) ==
              match key
              case "tools" =>
                var tools := FieldList(spec, "tools", render).Or([]); if tools != [] then Some(Strings(tools)) else None
              case "skills" =>
                var skills := FieldList(spec, "skills", render).Or([]);
                if skills != [] then Some(Strings(skills)) else None
              case "system_prompt" =>
                var text := FieldText(spec, "systemPrompt", render); if text != "" then Some(Str(text)) else None
              case "prompt_ref" =>
                var text := FieldText(spec, "promptRef", render); if text != "" then Some(Str(text)) else None
              case other => FieldAt(ShownTexts(spec, render), other)
  {
    var c0, tools := ShownTexts(spec, render), FieldList(spec, "tools", render).Or([]);
    var c1, skills := WithTexts(c0, "tools", tools), FieldList(spec, "skills", render).Or([]);
    var c2 := WithTexts(c1, "skills", skills);
    var c3 := WithText(c2, "system_prompt", FieldText(spec, "systemPrompt", render));
    NotShown(spec, render);
    AddedField(c0, "tools", "", tools, key);
    AddedField(c1, "skills", "", skills, key);
    AddedField(c2, "system_prompt", FieldText(spec, "systemPrompt", render), [], key);
    AddedField(c3, "prompt_ref", FieldText(spec, "promptRef", render), [], key);
  }

  lemma NotShown(spec: map<string, Json>, render: Renderer)
    ensures FieldAt(ShownTexts(spec, render), "tools").None? && FieldAt(ShownTexts(spec, render), "skills").None?
    ensures FieldAt(ShownTexts(spec, render), "system_prompt").None?
    ensures FieldAt(ShownTexts(spec, render), "prompt_ref").None?
  {
  }

  lemma ReadTexts(name: string, crd: Crd, render: Renderer, key: string)
    ensures var a := AgentFromCrd(name, crd, render);
            FieldAt(ShownTexts(crd.spec, render), key) ==
              match key
              case "model_type" => Some(Str(a.modelType))
              case "model_id" => Some(Str(a.modelId))
              case "strategy" => Some(Str(a.strategy))
              case "channel" => Some(Str(a.channel))
              case "storage" => Some(Str(a.storage))
              case "image" => Some(Str(a.image))
              case _ => None
  {
    RuntimeRead(name, crd, render);
  }

  lemma RuntimeRead(name: string, crd: Crd, render: Renderer)
    ensures var a := AgentFromCrd(name, crd, render);
            && a.modelType == FieldText(crd.spec, "modelType", render)
            && a.modelId == FieldText(crd.spec, "modelId", render)
            && a.strategy == FieldText(crd.spec, "strategy", render)
            && a.channel == FieldText(crd.spec, "channel", render)
            && a.storage == FieldText(crd.spec, "storage", render)
            && a.image == FieldText(crd.spec, "image", render)
  {
  }

  lemma ReadOthers(name: string, crd: Crd, render: Renderer)
    ensures var a := AgentFromCrd(name, crd, render);
            && a.systemPrompt == FieldText(crd.spec, "systemPrompt", render)
            && a.promptRef == FieldText(crd.spec, "promptRef", render)
            && a.tools == FieldList(crd.spec, "tools", render) && a.skills == FieldList(crd.spec, "skills", render)
            && a.config == CompatConfig(crd.spec, render)
  {
  }

  /** The configuration shown beside an agent read from a resource repeats eight of its texts and two of its
      lists, and holds nothing else. */
  function Shown(a: Agent, key: string): Option<Json> {
    match key
    case "model_type" => Some(Str(a.modelType))
    case "model_id" => Some(Str(a.modelId))
    case "strategy" => Some(Str(a.strategy))
    case "channel" => Some(Str(a.channel))
    case "storage" => Some(Str(a.storage))
    case "image" => Some(Str(a.image))
    case "system_prompt" => if a.systemPrompt != "" then Some(Str(a.systemPrompt)) else None
    case "prompt_ref" => if a.promptRef != "" then Some(Str(a.promptRef)) else None
    case "tools" => if a.tools.Or([]) != [] then Some(Strings(a.tools.value)) else None
    case "skills" => if a.skills.Or([]) != [] then Some(Strings(a.skills.value)) else None
    case _ => None
  }

  lemma ConfigShowsTheAgent(name: string, crd: Crd, render: Renderer, key: string)
    ensures FieldAt(AgentFromCrd(name, crd, render).config, key) == Shown(AgentFromCrd(name, crd, render), key)
  {
    ReadOthers(name, crd, render);
    ReadTexts(name, crd, render, key);
    ShownAdded(crd.spec, render, key);
  }
}
