/** Agent settings under their two spellings, snake_case in stored configurations and camelCase
    in custom resources (internal/agent/config_mapper.go, k8s_repository.go).

    The key table is a Go map, so every loop over it visits the keys in an arbitrary order; the
    results say that this never shows, and what survives the way from a registration request
    into a custom resource and back. */
module ConfigMapping {
  import opened Options
  import opened Text
  import opened Json
  import opened Faults
  import opened MergePatch
  import opened Walks
  import opened Artifacts

  type Table = map<string, string>

  const DB_TO_CRD: Table := map[
    "model_type" := "modelType", "model_id" := "modelId", "system_prompt" := "systemPrompt", "strategy" := "strategy",
    "channel" := "channel", "storage" := "storage", "image" := "image", "replicas" := "replicas", "tools" := "tools",
    "skills" := "skills", "knowledge_bases" := "knowledgeBases", "env_secrets" := "envSecrets",
    "suggestions_provider" := "suggestionsProvider", "suggestions" := "suggestions",
    "eval_sample_rate" := "evalSampleRate", "judge_model" := "judgeModel", "prompt_ref" := "promptRef"]

  const CRD_TO_DB: Table := map[
    "modelType" := "model_type", "modelId" := "model_id", "systemPrompt" := "system_prompt", "strategy" := "strategy",
    "channel" := "channel", "storage" := "storage", "image" := "image", "replicas" := "replicas", "tools" := "tools",
    "skills" := "skills", "knowledgeBases" := "knowledge_bases", "envSecrets" := "env_secrets",
    "suggestionsProvider" := "suggestions_provider", "suggestions" := "suggestions",
    "evalSampleRate" := "eval_sample_rate", "judgeModel" := "judge_model", "promptRef" := "prompt_ref"]

  ghost predicate Inverts(inverse: Table, table: Table) {
    && (forall db :: db in table ==> table[db] in inverse && inverse[table[db]] == db)
    && (forall crd :: crd in inverse ==> inverse[crd] in table && table[inverse[crd]] == crd)
  }

  /** A word that is a key in both spellings is the same setting in both. */
  ghost predicate Consistent(inverse: Table) {
    forall crd :: crd in inverse && inverse[crd] in inverse ==> inverse[crd] == crd
  }

  lemma TablesInvert()
    ensures Inverts(CRD_TO_DB, DB_TO_CRD) && Consistent(CRD_TO_DB)
  {
    forall db | db in DB_TO_CRD ensures DB_TO_CRD[db] in CRD_TO_DB && CRD_TO_DB[DB_TO_CRD[db]] == db {
      ThereAndBack(db);
    }
    forall crd | crd in CRD_TO_DB ensures CRD_TO_DB[crd] in DB_TO_CRD && DB_TO_CRD[CRD_TO_DB[crd]] == crd {
      BackAndThere(crd);
    }
    forall crd | crd in CRD_TO_DB && CRD_TO_DB[crd] in CRD_TO_DB ensures CRD_TO_DB[crd] == crd { SameWord(crd); }
  }

  const ALIKE := {"strategy", "channel", "storage", "image", "replicas", "tools", "skills", "suggestions"}

  predicate Renames(db: string, crd: string) {
    db in DB_TO_CRD && DB_TO_CRD[db] == crd && crd in CRD_TO_DB && CRD_TO_DB[crd] == db
  }

  lemma SpelledAlike(key: string)
    requires key in ALIKE
    ensures Renames(key, key)
  {
  }

  lemma ModelSpelledApart()
    ensures Renames("model_type", "modelType") && Renames("model_id", "modelId")
    ensures Renames("system_prompt", "systemPrompt") && Renames("prompt_ref", "promptRef")
  {
  }

  lemma OthersSpelledApart()
    ensures Renames("knowledge_bases", "knowledgeBases") && Renames("env_secrets", "envSecrets")
    ensures Renames("suggestions_provider", "suggestionsProvider")
    ensures Renames("eval_sample_rate", "evalSampleRate") && Renames("judge_model", "judgeModel")
  {
  }

  lemma ThereAndBack(db: string)
    requires db in DB_TO_CRD
    ensures DB_TO_CRD[db] in CRD_TO_DB && CRD_TO_DB[DB_TO_CRD[db]] == db
  {
    if db in ALIKE {
      SpelledAlike(db);
    } else {
      ModelSpelledApart();
      OthersSpelledApart();
    }
  }

  lemma BackAndThere(crd: string)
    requires crd in CRD_TO_DB
    ensures CRD_TO_DB[crd] in DB_TO_CRD && DB_TO_CRD[CRD_TO_DB[crd]] == crd
  {
    if crd in ALIKE {
      SpelledAlike(crd);
    } else {
      ModelSpelledApart();
      OthersSpelledApart();
    }
  }

  lemma StoredWordsAreNoKeys()
    ensures "model_type" !in CRD_TO_DB && "model_id" !in CRD_TO_DB && "system_prompt" !in CRD_TO_DB
    ensures "prompt_ref" !in CRD_TO_DB && "knowledge_bases" !in CRD_TO_DB && "env_secrets" !in CRD_TO_DB
    ensures "suggestions_provider" !in CRD_TO_DB && "eval_sample_rate" !in CRD_TO_DB && "judge_model" !in CRD_TO_DB
  {
  }

  lemma SameWord(crd: string)
    requires crd in CRD_TO_DB && CRD_TO_DB[crd] in CRD_TO_DB
    ensures CRD_TO_DB[crd] == crd
  {
    if crd in ALIKE {
      SpelledAlike(crd);
    } else {
      StoredWordsAreNoKeys();
    }
  }

  lemma InverseIsUnique(table: Table, i: Table, j: Table)
    requires Inverts(i, table) && Inverts(j, table)
    ensures i == j
  {
  }

  // ---------------------------------------------------------------- both spellings in one patch

  /** Empty strings are skipped: an enumeration in the schema would reject them. */
  predicate Usable(fields: map<string, Json>, key: string) {
    key in fields && fields[key] != Str("")
  }

  /** The camelCase spelling is looked at last, so it wins unless it is empty. */
  function Chosen(db: string, crd: string, updates: map<string, Json>): Option<Json> {
    if Usable(updates, crd) then Some(updates[crd])
    else if Usable(updates, db) then Some(updates[db])
    else None
  }

  /** The part of the patch due to the keys in `done`. */
  function PatchOf(inverse: Table, done: set<string>, updates: map<string, Json>): map<string, Json> {
    map crd | crd in inverse && inverse[crd] in done && Chosen(inverse[crd], crd, updates).Some? ::
      Chosen(inverse[crd], crd, updates).value
  }

  function FullPatch(inverse: Table, updates: map<string, Json>): map<string, Json> {
    PatchOf(inverse, inverse.Values, updates)
  }

  function Put(fields: map<string, Json>, key: string, value: Option<Json>): map<string, Json> {
    if value.Some? then fields[key := value.value] else fields
  }

  lemma PatchOneMore(table: Table, inverse: Table, done: set<string>, updates: map<string, Json>, db: string)
    requires Inverts(inverse, table) && db in table && db !in done
    ensures PatchOf(inverse, done + {db}, updates) ==
              Put(PatchOf(inverse, done, updates), table[db], Chosen(db, table[db], updates))
  {
  }

  /** Looking at the two spellings in turn. */
  lemma LastUsableWins(fields: map<string, Json>, db: string, crd: string, updates: map<string, Json>)
    ensures var once := if Usable(updates, db) then fields[crd := updates[db]] else fields;
            Put(fields, crd, Chosen(db, crd, updates)) ==
              if Usable(updates, crd) then once[crd := updates[crd]] else once
  {
  }

  lemma AllKeys(table: Table, inverse: Table)
    requires Inverts(inverse, table)
    ensures inverse.Values == table.Keys
  {
  }

  // ---------------------------------------------------------------- a request in stored form

  /** The CRD keys of a request, renamed. */
  function Stored(table: Table, done: set<string>, req: map<string, Json>): map<string, Json> {
    map db | db in table && table[db] in done && table[db] in req :: req[table[db]]
  }

  lemma StoredOneMore(table: Table, inverse: Table, done: set<string>, req: map<string, Json>, crd: string)
    requires Inverts(inverse, table) && crd in inverse && crd !in done
    ensures Stored(table, done + {crd}, req) == Put(Stored(table, done, req), inverse[crd], FieldAt(req, crd))
  {
  }

  function CamelCaseOnly(inverse: Table, req: map<string, Json>): map<string, Json> {
    map crd | crd in req && crd in inverse :: req[crd]
  }

  /** Going through the stored form changes nothing: both ways lead to the same patch. */
  lemma TwoPathsOnePatch(table: Table, inverse: Table, req: map<string, Json>)
    requires Inverts(inverse, table) && Consistent(inverse)
    ensures FullPatch(inverse, Stored(table, inverse.Keys, req)) == FullPatch(inverse, CamelCaseOnly(inverse, req))
  {
  }

  class KeyMapper {
    const table: Table
    ghost const inverse: Table
    var crdToDb: Table

    ghost predicate Valid()
      reads this
    {
      Inverts(inverse, table) && crdToDb == inverse
    }

    /** The inverse is computed once, from a walk over the table. */
    constructor (table: Table, ghost inverse: Table)
      requires Inverts(inverse, table)
      ensures Valid() && this.table == table && this.inverse == inverse
    {
      this.table, this.inverse := table, inverse;
      crdToDb := map[];
      new;
      var pending := table.Keys;
      while pending != {}
        invariant pending <= table.Keys
        invariant forall db :: db in table && db !in pending ==> table[db] in crdToDb && crdToDb[table[db]] == db
        invariant forall crd :: crd in crdToDb ==> crdToDb[crd] in table && table[crdToDb[crd]] == crd
        decreases |pending|
      {
        var db :| db in pending;
        crdToDb := crdToDb[table[db] := db];
        pending := pending - {db};
      }
      InverseIsUnique(table, crdToDb, inverse);
    }

    method MapRequestToDB(req: map<string, Json>) returns (result: map<string, Json>)
      requires Valid()
      ensures result == Stored(table, inverse.Keys, req)
    {
      result := map[];
      var pending := crdToDb.Keys;
      ghost var done: set<string> := {};
      while pending != {}
        invariant pending !! done && pending + done == inverse.Keys
        invariant result == Stored(table, done, req)
        decreases |pending|
      {
        var crd :| crd in pending;
        StoredOneMore(table, inverse, done, req, crd);
        OneVisited(inverse.Keys, pending, done, crd);
        if crd in req { result := result[crdToDb[crd] := req[crd]]; }
        pending, done := pending - {crd}, done + {crd};
      }
    }
  }

  // ---------------------------------------------------------------- registration

  datatype CreateRequest = CreateRequest(
    name: string, framework: string, description: string, version: string,
    modelType: string, modelId: string, systemPrompt: string, strategy: string, channel: string, storage: string,
    image: string, tools: seq<string>, skills: seq<string>, envSecrets: seq<string>, suggestionsProvider: string,
    suggestions: string, gcpServiceAccount: string, evalSampleRate: int, judgeModel: string, promptRef: string,
    config: map<string, Json>)

  function RequestText(req: CreateRequest, key: string): string {
    match key
    case "model_type" => req.modelType
    case "model_id" => req.modelId
    case "system_prompt" => req.systemPrompt
    case "prompt_ref" => req.promptRef
    case "strategy" => req.strategy
    case "channel" => req.channel
    case "storage" => req.storage
    case "image" => req.image
    case _ => ""
  }

  function WithSettings(req: CreateRequest): map<string, Json> {
    WithText(WithText(WithText(WithText(WithText(WithText(WithText(WithText(req.config,
      "model_type", req.modelType), "model_id", req.modelId), "system_prompt", req.systemPrompt),
      "prompt_ref", req.promptRef), "strategy", req.strategy), "channel", req.channel), "storage", req.storage),
      "image", req.image)
  }

  function WithNames(cfg: map<string, Json>, req: CreateRequest): map<string, Json> {
    WithText(WithText(WithText(WithText(cfg, "gcp_service_account", req.gcpServiceAccount),
      "suggestions_provider", req.suggestionsProvider), "suggestions", req.suggestions), "judge_model", req.judgeModel)
  }

  function WithExtras(cfg: map<string, Json>, req: CreateRequest): map<string, Json> {
    var listed := WithTexts(WithTexts(WithTexts(cfg, "tools", req.tools), "skills", req.skills), "env_secrets",
                            req.envSecrets);
    var named := WithNames(listed, req);
    if req.evalSampleRate > 0 then named["eval_sample_rate" := Float(req.evalSampleRate as real)] else named
  }

  /** The stored configuration: the request's own settings over those of its config. */
  function MergedConfig(req: CreateRequest): map<string, Json> { WithExtras(WithSettings(req), req) }

  method SetIfNotEmpty(cfg: map<string, Json>, key: string, val: string) returns (r: map<string, Json>)
    ensures r == WithText(cfg, key, val)
  {
    r := cfg;
    if val != "" { r := r[key := Str(val)]; }
  }

  method MergeAllFieldsIntoConfig(req: CreateRequest) returns (cfg: map<string, Json>)
    ensures cfg == MergedConfig(req)
  {
    cfg := req.config;
    cfg := SetIfNotEmpty(cfg, "model_type", req.modelType);
    cfg := SetIfNotEmpty(cfg, "model_id", req.modelId);
    cfg := SetIfNotEmpty(cfg, "system_prompt", req.systemPrompt);
    cfg := SetIfNotEmpty(cfg, "prompt_ref", req.promptRef);
    cfg := SetIfNotEmpty(cfg, "strategy", req.strategy);
    cfg := SetIfNotEmpty(cfg, "channel", req.channel);
    cfg := SetIfNotEmpty(cfg, "storage", req.storage);
    cfg := SetIfNotEmpty(cfg, "image", req.image);
    if req.tools != [] { cfg := cfg["tools" := Strings(req.tools)]; }
    if req.skills != [] { cfg := cfg["skills" := Strings(req.skills)]; }
    if req.envSecrets != [] { cfg := cfg["env_secrets" := Strings(req.envSecrets)]; }
    cfg := SetIfNotEmpty(cfg, "gcp_service_account", req.gcpServiceAccount);
    cfg := SetIfNotEmpty(cfg, "suggestions_provider", req.suggestionsProvider);
    cfg := SetIfNotEmpty(cfg, "suggestions", req.suggestions);
    cfg := SetIfNotEmpty(cfg, "judge_model", req.judgeModel);
    if req.evalSampleRate > 0 { cfg := cfg["eval_sample_rate" := Float(req.evalSampleRate as real)]; }
  }

  const TEXT_SETTINGS := {"model_type", "model_id", "system_prompt", "prompt_ref", "strategy", "channel", "storage",
                          "image"}

  lemma SettingIsMerged(req: CreateRequest, key: string)
    requires key in TEXT_SETTINGS
    ensures FieldAt(WithSettings(req), key) ==
              if RequestText(req, key) != "" then Some(Str(RequestText(req, key))) else FieldAt(req.config, key)
  {
    var c0 := req.config;
    var c1 := WithText(c0, "model_type", req.modelType);
    var c2 := WithText(c1, "model_id", req.modelId);
    var c3 := WithText(c2, "system_prompt", req.systemPrompt);
    var c4 := WithText(c3, "prompt_ref", req.promptRef);
    var c5 := WithText(c4, "strategy", req.strategy);
    var c6 := WithText(c5, "channel", req.channel);
    var c7 := WithText(c6, "storage", req.storage);
    AddedField(c0, "model_type", req.modelType, [], key);
    AddedField(c1, "model_id", req.modelId, [], key);
    AddedField(c2, "system_prompt", req.systemPrompt, [], key);
    AddedField(c3, "prompt_ref", req.promptRef, [], key);
    AddedField(c4, "strategy", req.strategy, [], key);
    AddedField(c5, "channel", req.channel, [], key);
    AddedField(c6, "storage", req.storage, [], key);
    AddedField(c7, "image", req.image, [], key);
  }

  lemma ExtrasLeaveSettings(cfg: map<string, Json>, req: CreateRequest, key: string)
    requires key in TEXT_SETTINGS
    ensures FieldAt(WithExtras(cfg, req), key) == FieldAt(cfg, key)
  {
    var c1 := WithTexts(cfg, "tools", req.tools);
    var c2 := WithTexts(c1, "skills", req.skills);
    var c3 := WithTexts(c2, "env_secrets", req.envSecrets);
    AddedField(cfg, "tools", "", req.tools, key);
    AddedField(c1, "skills", "", req.skills, key);
    AddedField(c2, "env_secrets", "", req.envSecrets, key);
    NamesLeaveSettings(c3, req, key);
  }

  lemma NamesLeaveSettings(c3: map<string, Json>, req: CreateRequest, key: string)
    requires key in TEXT_SETTINGS
    ensures FieldAt(WithNames(c3, req), key) == FieldAt(c3, key)
  {
  }

  // ---------------------------------------------------------------- custom resources

  datatype Crd = Crd(spec: map<string, Json>, annotations: map<string, string>)

  datatype CreateParams = CreateParams(
    id: string, teamId: string, createdBy: string, name: string, slug: string, description: string,
    framework: string, version: string, config: map<string, Json>)

  function SlugOf(params: CreateParams): string {
    if params.slug == "" then Dashed(params.name) else params.slug
  }

  function BaseSpec(params: CreateParams): map<string, Json> {
    WithText(WithText(map["name" := Str(params.name), "framework" := Str(params.framework)],
                      "description", params.description), "version", params.version)
  }

  /** The usable settings under their CRD keys. */
  function Renamed(inverse: Table, done: set<string>, cfg: map<string, Json>): map<string, Json> {
    map crd | crd in inverse && inverse[crd] in done && Usable(cfg, inverse[crd]) :: cfg[inverse[crd]]
  }

  function Copied(inverse: Table, done: set<string>, base: map<string, Json>, cfg: map<string, Json>): map<string, Json>
  {
    base + Renamed(inverse, done, cfg)
  }

  function UsableAt(cfg: map<string, Json>, db: string): Option<Json> {
    if Usable(cfg, db) then Some(cfg[db]) else None
  }

  lemma NothingCopied(inverse: Table, base: map<string, Json>, cfg: map<string, Json>)
    ensures Copied(inverse, {}, base, cfg) == base
  {
  }

  lemma RenamedOneMore(table: Table, inverse: Table, done: set<string>, cfg: map<string, Json>, db: string)
    requires Inverts(inverse, table) && db in table && db !in done
    ensures Renamed(inverse, done + {db}, cfg) == Put(Renamed(inverse, done, cfg), table[db], UsableAt(cfg, db))
  {
  }

  lemma CopiedOneMore(table: Table, inverse: Table, done: set<string>, base: map<string, Json>,
                      cfg: map<string, Json>, db: string)
    requires Inverts(inverse, table) && db in table && db !in done
    ensures Copied(inverse, done + {db}, base, cfg) ==
              Put(Copied(inverse, done, base, cfg), table[db], UsableAt(cfg, db))
  {
    RenamedOneMore(table, inverse, done, cfg, db);
  }

  function Defaulted(spec: map<string, Json>, key: string, fallback: string): map<string, Json> {
    if key !in spec || spec[key].Null? then spec[key := Str(fallback)] else spec
  }

  function WithDefaults(spec: map<string, Json>): map<string, Json> {
    Defaulted(Defaulted(Defaulted(spec, "strategy", "agent-react"), "channel", "rest"),
              "image", "ghcr.io/recif-platform/corail:v0.1.1")["replicas" := Int(1)]
  }

  function SpecFor(inverse: Table, params: CreateParams): map<string, Json> {
    WithDefaults(Copied(inverse, inverse.Values, BaseSpec(params), params.config))
  }

  function Annotated(annotations: map<string, string>, key: string, value: string): map<string, string> {
    if value == "" then annotations else annotations[key := value]
  }

  function Annotations(params: CreateParams): map<string, string> {
    Annotated(Annotated(Annotated(map[], "recif.dev/agent-id", params.id), "recif.dev/team-id", params.teamId),
              "recif.dev/created-by", params.createdBy)
  }

  function CrdFor(inverse: Table, params: CreateParams): Crd {
    Crd(SpecFor(inverse, params), Annotations(params))
  }

  // ---------------------------------------------------------------- reading back

  function FieldText(spec: map<string, Json>, key: string, render: Renderer): string {
    if key in spec then render(spec[key]) else ""
  }

  function FieldList(spec: map<string, Json>, key: string, render: Renderer): Option<seq<string>> {
    if key in spec && spec[key].Arr? then
      var items := spec[key].items;
      Some(seq(|items|, i requires 0 <= i < |items| => render(items[i])))
    else None
  }

  /** Go's conversion to int32 wraps. */
  function Int32(i: int): int { (i + 0x8000_0000) % 0x1_0000_0000 - 0x8000_0000 }

  lemma Int32Wraps(i: int)
    ensures -2_147_483_648 <= Int32(i) <= 2_147_483_647 && (i - Int32(i)) % 4_294_967_296 == 0
  {
  }

  function ShownTexts(spec: map<string, Json>, render: Renderer): map<string, Json> {
    map["model_type" := Str(FieldText(spec, "modelType", render)),
        "model_id" := Str(FieldText(spec, "modelId", render)),
        "strategy" := Str(FieldText(spec, "strategy", render)),
        "channel" := Str(FieldText(spec, "channel", render)),
        "storage" := Str(FieldText(spec, "storage", render)),
        "image" := Str(FieldText(spec, "image", render))]
  }

  /** The configuration shown beside the agent: these keys and no others. */
  function CompatConfig(spec: map<string, Json>, render: Renderer): map<string, Json> {
    var tools, skills := FieldList(spec, "tools", render), FieldList(spec, "skills", render);
    var listed := WithTexts(WithTexts(ShownTexts(spec, render), "tools", tools.Or([])), "skills", skills.Or([]));
    WithText(WithText(listed, "system_prompt", FieldText(spec, "systemPrompt", render)), "prompt_ref",
             FieldText(spec, "promptRef", render))
  }

  function AgentFromCrd(name: string, crd: Crd, render: Renderer): Agent {
    var spec := crd.spec;
    Agent(
      if "recif.dev/agent-id" in crd.annotations && crd.annotations["recif.dev/agent-id"] != ""
        then crd.annotations["recif.dev/agent-id"] else name,
      if "recif.dev/team-id" in crd.annotations then crd.annotations["recif.dev/team-id"] else "",
      FieldText(spec, "name", render), name, FieldText(spec, "framework", render),
      FieldText(spec, "description", render),
      FieldText(spec, "version", render), FieldText(spec, "channel", render), FieldText(spec, "strategy", render),
      FieldText(spec, "modelType", render), FieldText(spec, "modelId", render), FieldText(spec, "systemPrompt", render),
      FieldText(spec, "promptRef", render), FieldText(spec, "storage", render), FieldText(spec, "image", render),
      if "replicas" in spec && spec["replicas"].Int? then Int32(spec["replicas"].i) else 0,
      FieldList(spec, "tools", render), FieldList(spec, "skills", render), FieldList(spec, "knowledgeBases", render),
      CompatConfig(spec, render))
  }

  function ReadText(a: Agent, key: string): string {
    match key
    case "model_type" => a.modelType
    case "model_id" => a.modelId
    case "system_prompt" => a.systemPrompt
    case "prompt_ref" => a.promptRef
    case "strategy" => a.strategy
    case "channel" => a.channel
    case "storage" => a.storage
    case "image" => a.image
    case _ => ""
  }

  function CrdKey(key: string): string {
    match key
    case "model_type" => "modelType"
    case "model_id" => "modelId"
    case "system_prompt" => "systemPrompt"
    case "prompt_ref" => "promptRef"
    case other => other
  }

  lemma CrdKeyInTable(key: string)
    requires key in TEXT_SETTINGS
    ensures CrdKey(key) in CRD_TO_DB && CRD_TO_DB[CrdKey(key)] == key
  {
  }

  lemma SettingIsRead(name: string, crd: Crd, render: Renderer, key: string)
    requires key in TEXT_SETTINGS
    ensures ReadText(AgentFromCrd(name, crd, render), key) == FieldText(crd.spec, CrdKey(key), render)
  {
  }

  // ---------------------------------------------------------------- register, then read back

  function DefaultText(key: string): string {
    match key
    case "strategy" => "agent-react"
    case "channel" => "rest"
    case "image" => "ghcr.io/recif-platform/corail:v0.1.1"
    case _ => ""
  }

  /** The request's own value, else its config value, else the default. */
  function Expected(req: CreateRequest, key: string, render: Renderer): string {
    if RequestText(req, key) != "" then RequestText(req, key)
    else match FieldAt(req.config, key)
      case None => DefaultText(key)
      case Some(Str(s)) => if s == "" then DefaultText(key) else s
      case Some(Null) => if DefaultText(key) != "" then DefaultText(key) else render(Null)
      case Some(v) => render(v)
  }

  function ParamsFor(req: CreateRequest, id: string, teamId: string, createdBy: string, slug: string): CreateParams {
    CreateParams(id, teamId, createdBy, req.name, slug, req.description, req.framework, req.version, MergedConfig(req))
  }

  lemma BaseHasNoSetting(params: CreateParams, key: string)
    requires key in TEXT_SETTINGS
    ensures FieldAt(BaseSpec(params), CrdKey(key)) == None
  {
  }

  lemma RenamedSetting(inverse: Table, base: map<string, Json>, cfg: map<string, Json>, crd: string)
    requires crd in inverse
    ensures FieldAt(Copied(inverse, inverse.Values, base, cfg), crd) ==
              if Usable(cfg, inverse[crd]) then Some(cfg[inverse[crd]]) else FieldAt(base, crd)
  {
  }

  lemma DefaultedSetting(chosen: map<string, Json>, key: string)
    requires key in TEXT_SETTINGS
    ensures var before := FieldAt(chosen, CrdKey(key));
            FieldAt(WithDefaults(chosen), CrdKey(key)) ==
              if before.Or(Null) == Null && DefaultText(key) != "" then Some(Str(DefaultText(key))) else before
  {
  }

  lemma SpecSetting(params: CreateParams, key: string)
    requires key in TEXT_SETTINGS
    ensures var value := if Usable(params.config, key) then Some(params.config[key]) else None;
            FieldAt(SpecFor(CRD_TO_DB, params), CrdKey(key)) ==
              if value.Or(Null) == Null && DefaultText(key) != "" then Some(Str(DefaultText(key))) else value
  {
    CrdKeyInTable(key);
    BaseHasNoSetting(params, key);
    RenamedSetting(CRD_TO_DB, BaseSpec(params), params.config, CrdKey(key));
    DefaultedSetting(Copied(CRD_TO_DB, CRD_TO_DB.Values, BaseSpec(params), params.config), key);
  }

  lemma MergedSetting(req: CreateRequest, key: string)
    requires key in TEXT_SETTINGS
    ensures FieldAt(MergedConfig(req), key) ==
              if RequestText(req, key) != "" then Some(Str(RequestText(req, key))) else FieldAt(req.config, key)
  {
    SettingIsMerged(req, key);
    ExtrasLeaveSettings(WithSettings(req), req, key);
  }

  /** An agent registered by a request reads back with the settings the request gave it. */
  lemma RegisterThenReadBack(req: CreateRequest, id: string, teamId: string, createdBy: string, slug: string,
                             name: string, render: Renderer, key: string)
    requires key in TEXT_SETTINGS
    ensures ReadText(AgentFromCrd(name, CrdFor(CRD_TO_DB, ParamsFor(req, id, teamId, createdBy, slug)), render), key)
              == Expected(req, key, render)
  {
    var params := ParamsFor(req, id, teamId, createdBy, slug);
    SettingIsRead(name, CrdFor(CRD_TO_DB, params), render, key);
    RegisteredField(req, params, key);
    ExpectedText(req, key, render);
  }

  /** The field a registration ends in. */
  function ExpectedField(req: CreateRequest, key: string): Option<Json> {
    var own := if RequestText(req, key) != "" then Some(Str(RequestText(req, key))) else FieldAt(req.config, key);
    var value := if own == Some(Str("")) then None else own;
    if value.Or(Null) == Null && DefaultText(key) != "" then Some(Str(DefaultText(key))) else value
  }

  lemma RegisteredField(req: CreateRequest, params: CreateParams, key: string)
    requires key in TEXT_SETTINGS && params.config == MergedConfig(req)
    ensures FieldAt(SpecFor(CRD_TO_DB, params), CrdKey(key)) == ExpectedField(req, key)
  {
    SpecSetting(params, key);
    MergedSetting(req, key);
  }

  lemma ExpectedText(req: CreateRequest, key: string, render: Renderer)
    ensures Expected(req, key, render) ==
              if ExpectedField(req, key).Some? then render(ExpectedField(req, key).value) else ""
  {
  }

  // ---------------------------------------------------------------- updating

  /** What a merge leaves where it brings this value. */
  function MergedIn(spec: map<string, Json>, key: string, value: Json): Option<Json> {
    if value.Null? then None else Some(Merge(Field(spec, key), value))
  }

  /** What an update leaves of one setting: the value under its CRD key unless that is the empty text, else the
      one under its stored key unless that is, else what was there; a null removes it. */
  lemma UpdateThenReadBack(inverse: Table, spec: map<string, Json>, updates: map<string, Json>, key: string)
    ensures FieldAt(MergeFields(spec, FullPatch(inverse, updates)), key) ==
              if key !in inverse then FieldAt(spec, key)
              else if key in updates && updates[key] != Str("") then MergedIn(spec, key, updates[key])
              else if inverse[key] in updates && updates[inverse[key]] != Str("")
              then MergedIn(spec, key, updates[inverse[key]])
              else FieldAt(spec, key)
  {
  }

  // ---------------------------------------------------------------- the repository

  type Crds = map<string, Crd>

  /** The first listed resource that carries a legacy id. */
  function FirstWithId(listing: seq<string>, crds: Crds, id: string): Option<string> {
    if listing == [] then None
    else if listing[0] in crds && Annotation(crds[listing[0]], "recif.dev/agent-id") == id then Some(listing[0])
    else FirstWithId(listing[1..], crds, id)
  }

  function Annotation(crd: Crd, key: string): string {
    if key in crd.annotations then crd.annotations[key] else ""
  }

  /** By object name; failing that, a legacy id is looked for among the annotations. */
  function Find(listing: seq<string>, crds: Crds, id: string, get: Fate, list: Fate): Option<string> {
    if Answered(get) && id in crds then Some(id)
    else if "ag_" <= id && Answered(list) then FirstWithId(listing, crds, id)
    else None
  }

  /** Found under its own name, if that lookup answers; otherwise, if it looks like a legacy id, the first listed
      resource annotated with it. */
  lemma FindExactlyWhen(listing: seq<string>, crds: Crds, id: string, get: Fate, list: Fate, name: string)
    ensures Find(listing, crds, id, get, list) == Some(name) <==>
              if get == Acknowledged && id in crds then name == id
              else "ag_" <= id && list == Acknowledged && FirstAnnotated(listing, crds, id, name)
  {
    FirstWithIdIs(listing, crds, id, name);
  }

  ghost predicate Carries(crds: Crds, listed: string, id: string) {
    && listed in crds
    && (if "recif.dev/agent-id" in crds[listed].annotations then crds[listed].annotations["recif.dev/agent-id"] == id
        else id == "")
  }

  ghost predicate FirstAnnotated(listing: seq<string>, crds: Crds, id: string, name: string) {
    exists i :: 0 <= i < |listing| && listing[i] == name && Carries(crds, listing[i], id)
                && forall j :: 0 <= j < i ==> !Carries(crds, listing[j], id)
  }

  lemma {:induction false} FirstWithIdIs(listing: seq<string>, crds: Crds, id: string, name: string)
    ensures FirstWithId(listing, crds, id) == Some(name) <==> FirstAnnotated(listing, crds, id, name)
  {
    if listing != [] {
      FirstWithIdIs(listing[1..], crds, id, name);
      if !Carries(crds, listing[0], id) { FirstAnnotatedFurtherOn(listing, crds, id, name); }
    }
  }

  lemma FirstAnnotatedFurtherOn(listing: seq<string>, crds: Crds, id: string, name: string)
    requires listing != [] && !Carries(crds, listing[0], id)
    ensures FirstAnnotated(listing[1..], crds, id, name) <==> FirstAnnotated(listing, crds, id, name)
  {
    var rest := listing[1..];
    assert forall j :: 0 <= j < |rest| ==> rest[j] == listing[j + 1];
    if FirstAnnotated(rest, crds, id, name) {
      var i :| 0 <= i < |rest| && rest[i] == name && Carries(crds, rest[i], id)
               && forall j :: 0 <= j < i ==> !Carries(crds, rest[j], id);
      assert forall j :: 0 <= j < i + 1 ==> j == 0 || listing[j] == rest[j - 1];
      assert listing[i + 1] == name;
    }
    if FirstAnnotated(listing, crds, id, name) {
      var i :| 0 <= i < |listing| && listing[i] == name && Carries(crds, listing[i], id)
               && forall j :: 0 <= j < i ==> !Carries(crds, listing[j], id);
      assert i > 0 && rest[i - 1] == name;
    }
  }

  function ConfigUpdated(crds: Crds, name: string, patch: map<string, Json>): Crds
    requires name in crds
  {
    crds[name := crds[name].(spec := MergeFields(crds[name].spec, patch))]
  }

  class K8sRepository {
    var crds: Crds
    const listing: seq<string>
    const render: Renderer
    const table: Table
    ghost const inverse: Table

    constructor (crds: Crds, listing: seq<string>, render: Renderer, table: Table, ghost inverse: Table)
      requires Inverts(inverse, table)
      ensures this.crds == crds && this.listing == listing && this.render == render && Valid()
                && this.inverse == inverse
    {
      this.crds, this.listing, this.render, this.table, this.inverse := crds, listing, render, table, inverse;
    }

    ghost predicate Valid() { Inverts(inverse, table) }

    method CopySettings(base: map<string, Json>, cfg: map<string, Json>) returns (spec: map<string, Json>)
      requires Valid()
      ensures spec == Copied(inverse, inverse.Values, base, cfg)
    {
      spec := base;
      NothingCopied(inverse, base, cfg);
      var pending := table.Keys;
      ghost var done: set<string> := {};
      while pending != {}
        invariant pending !! done && pending + done == table.Keys
        invariant spec == Copied(inverse, done, base, cfg)
        decreases |pending|
      {
        var db :| db in pending;
        CopiedOneMore(table, inverse, done, base, cfg, db);
        OneVisited(table.Keys, pending, done, db);
        if Usable(cfg, db) { spec := spec[table[db] := cfg[db]]; }
        pending, done := pending - {db}, done + {db};
      }
      AllKeys(table, inverse);
    }

    method BuildSpec(params: CreateParams) returns (spec: map<string, Json>)
      requires Valid()
      ensures spec == SpecFor(inverse, params)
    {
      spec := CopySettings(BaseSpec(params), params.config);
      spec := SetDefaults(spec);
    }

    method SetDefaults(chosen: map<string, Json>) returns (spec: map<string, Json>)
      ensures spec == WithDefaults(chosen)
    {
      spec := chosen;
      if "strategy" !in spec || spec["strategy"].Null? { spec := spec["strategy" := Str("agent-react")]; }
      if "channel" !in spec || spec["channel"].Null? { spec := spec["channel" := Str("rest")]; }
      if "image" !in spec || spec["image"].Null? {
        spec := spec["image" := Str("ghcr.io/recif-platform/corail:v0.1.1")];
      }
      spec := spec["replicas" := Int(1)];
    }

    method Create(params: CreateParams, fate: Fate) returns (agent: Option<Agent>)
      requires Valid()
      modifies this
      ensures crds == if fate == Refused || SlugOf(params) in old(crds) then old(crds)
                      else old(crds)[SlugOf(params) := CrdFor(inverse, params)]
      ensures agent == if fate == Acknowledged && SlugOf(params) !in old(crds)
                       then Some(AgentFromCrd(SlugOf(params), CrdFor(inverse, params), render)) else None
      ensures agent.Some? ==>
                agent.value.slug == (if params.slug == "" then Dashed(params.name) else params.slug)
                && agent.value.slug !in old(crds) && agent.value.slug in crds
    {
      var slug := if params.slug == "" then Dashed(params.name) else params.slug;
      var spec := BuildSpec(params);
      var crd := Crd(spec, Annotations(params));
      assert slug == SlugOf(params) && crd == CrdFor(inverse, params);
      agent := None;
      if slug !in crds {
        if fate != Refused { crds := crds[slug := crd]; }
        if fate == Acknowledged { agent := Some(AgentFromCrd(slug, crd, render)); }
      }
    }

    method Get(id: string, get: Fate, list: Fate) returns (name: Option<string>)
      ensures name == Find(listing, crds, id, get, list)
    {
      if Answered(get) && id in crds { return Some(id); }
      if "ag_" <= id {
        if !Answered(list) { return None; }
        var n := 0;
        while n < |listing|
          invariant 0 <= n <= |listing|
          invariant FirstWithId(listing, crds, id) == FirstWithId(listing[n..], crds, id)
        {
          if listing[n] in crds && Annotation(crds[listing[n]], "recif.dev/agent-id") == id { return Some(listing[n]); }
          n := n + 1;
        }
      }
      name := None;
    }

    method BuildPatch(updates: map<string, Json>) returns (patch: map<string, Json>)
      requires Valid()
      ensures patch == FullPatch(inverse, updates)
    {
      patch := map[];
      var pending := table.Keys;
      ghost var done: set<string> := {};
      while pending != {}
        invariant pending !! done && pending + done == table.Keys
        invariant patch == PatchOf(inverse, done, updates)
        decreases |pending|
      {
        var db :| db in pending;
        PatchOneMore(table, inverse, done, updates, db);
        OneVisited(table.Keys, pending, done, db);
        LastUsableWins(patch, db, table[db], updates);
        if Usable(updates, db) { patch := patch[table[db] := updates[db]]; }
        if Usable(updates, table[db]) { patch := patch[table[db] := updates[table[db]]]; }
        pending, done := pending - {db}, done + {db};
      }
      AllKeys(table, inverse);
    }

    method UpdateConfig(id: string, updates: map<string, Json>, get: Fate, list: Fate, write: Fate) returns (ok: bool)
      requires Valid()
      modifies this
      ensures var name := Find(listing, old(crds), id, get, list);
              crds == if name.None? || name.value !in old(crds) || write == Refused then old(crds)
                      else ConfigUpdated(old(crds), name.value, FullPatch(inverse, updates))
      ensures var name := Find(listing, old(crds), id, get, list);
              ok == (name.Some? && (FullPatch(inverse, updates) == map[]
                                    || (name.value in old(crds) && write == Acknowledged)))
    {
      var name := Get(id, get, list);
      if name.None? { return false; }
      var patch := BuildPatch(updates);
      if patch == map[] {
        EmptyPatchIsIdle(crds, name.value);
        return true;
      }
      ok := name.value in crds && write == Acknowledged;
      if name.value in crds && write != Refused {
        crds := crds[name.value := crds[name.value].(spec := MergeFields(crds[name.value].spec, patch))];
      }
    }
  }

  lemma EmptyPatchIsIdle(crds: Crds, name: string)
    ensures name in crds ==> ConfigUpdated(crds, name, map[]) == crds
  {
    if name in crds {
      assert MergeFields(crds[name].spec, map[]) == crds[name].spec;
    }
  }

  // ---------------------------------------------------------------- the evaluation gate

  /** A release is held back for evaluation exactly when the agent's configuration names a minimum. */
  lemma GateIsSetExactlyWhen(slug: string, version: int, changelog: string, a: Agent, now: string, render: Renderer)
    ensures BuildArtifact(slug, version, changelog, a, now, render).governance.minQualityScore > 0 <==>
              && "governance" in a.config && a.config["governance"].Obj?
              && var score := Field(a.config["governance"].fields, "min_quality_score");
                 (score.Int? && score.i >= 1) || (score.Float? && score.x >= 1.0)
  {
  }

  lemma CompatConfigHasNoGovernance(spec: map<string, Json>, render: Renderer)
    ensures "governance" !in CompatConfig(spec, render)
  {
  }

  /** The table has no governance key, so what a registration says about it does not survive the
      cluster: releases of agents read from custom resources are never held back. */
  lemma ClusterAgentsSkipTheGate(name: string, crd: Crd, slug: string, version: int, changelog: string, now: string,
                                 render: Renderer)
    ensures BuildArtifact(slug, version, changelog, AgentFromCrd(name, crd, render), now,
                          render).governance.minQualityScore <= 0
  {
    CompatConfigHasNoGovernance(crd.spec, render);
    GateIsSetExactlyWhen(slug, version, changelog, AgentFromCrd(name, crd, render), now, render);
  }
}
