/** A configuration edit on its way into a release (internal/agent/config_handler.go,
    createReleaseForAgent in internal/release/handler.go): the agent is overlaid with its custom
    resource, edited, overlaid with the resource once more, and released. */
module ConfigEdits {
  import opened Options
  import opened Text
  import opened Json
  import opened Faults
  import opened Artifacts
  import opened ConfigMapping
  import opened Enrichment
  import ReleaseLog

  // ---------------------------------------------------------------- settings

  datatype TextSetting = Channel | Strategy | ModelType | ModelId | SystemPrompt | Storage | Image | PromptRef

  datatype ListSetting = Tools | Skills | KnowledgeBases

  /** The name of a setting, in a request and in a resource alike. */
  function TextKey(t: TextSetting): string {
    match t
    case Channel => "channel"
    case Strategy => "strategy"
    case ModelType => "modelType"
    case ModelId => "modelId"
    case SystemPrompt => "systemPrompt"
    case Storage => "storage"
    case Image => "image"
    case PromptRef => "promptRef"
  }

  function ListKey(l: ListSetting): string {
    match l
    case Tools => "tools"
    case Skills => "skills"
    case KnowledgeBases => "knowledgeBases"
  }

  function TextOf(a: Agent, t: TextSetting): string {
    match t
    case Channel => a.channel
    case Strategy => a.strategy
    case ModelType => a.modelType
    case ModelId => a.modelId
    case SystemPrompt => a.systemPrompt
    case Storage => a.storage
    case Image => a.image
    case PromptRef => a.promptRef
  }

  function ListOf(a: Agent, l: ListSetting): Option<seq<string>> {
    match l
    case Tools => a.tools
    case Skills => a.skills
    case KnowledgeBases => a.knowledgeBases
  }

  /** What no edit and no resource touches. */
  predicate SameAgent(a: Agent, b: Agent) {
    && a.id == b.id && a.teamId == b.teamId && a.name == b.name && a.slug == b.slug && a.framework == b.framework
    && a.description == b.description && a.version == b.version && a.config == b.config
  }

  lemma SettingsMakeTheAgent(a: Agent, b: Agent)
    ensures a == b <==>
              && SameAgent(a, b) && a.replicas == b.replicas
              && (forall t :: TextOf(a, t) == TextOf(b, t)) && (forall l :: ListOf(a, l) == ListOf(b, l))
  {
    if (forall t :: TextOf(a, t) == TextOf(b, t)) && (forall l :: ListOf(a, l) == ListOf(b, l)) {
      assert TextOf(a, Channel) == TextOf(b, Channel) && TextOf(a, Strategy) == TextOf(b, Strategy);
      assert TextOf(a, ModelType) == TextOf(b, ModelType) && TextOf(a, ModelId) == TextOf(b, ModelId);
      assert TextOf(a, SystemPrompt) == TextOf(b, SystemPrompt) && TextOf(a, Storage) == TextOf(b, Storage);
      assert TextOf(a, Image) == TextOf(b, Image) && TextOf(a, PromptRef) == TextOf(b, PromptRef);
      assert ListOf(a, Tools) == ListOf(b, Tools) && ListOf(a, Skills) == ListOf(b, Skills);
      assert ListOf(a, KnowledgeBases) == ListOf(b, KnowledgeBases);
    }
  }

  // ---------------------------------------------------------------- the edit

  /** What a request asks a text setting to be. An empty text asks for something only where it
      clears the setting. */
  function AskedText(req: map<string, Json>, t: TextSetting): Option<string> {
    if t == SystemPrompt || t == PromptRef then AnyString(req, TextKey(t)) else StringAt(req, TextKey(t))
  }

  function AnyString(fields: map<string, Json>, key: string): Option<string> {
    if key in fields && fields[key].Str? then Some(fields[key].s) else None
  }

  /** Entries that are not strings become empty ones. */
  function AskedList(req: map<string, Json>, l: ListSetting): Option<seq<string>> {
    if ListKey(l) in req && req[ListKey(l)].Arr? then
      var items := req[ListKey(l)].items;
      Some(seq(|items|, i requires 0 <= i < |items| => if items[i].Str? then items[i].s else ""))
    else None
  }

  function AskedReplicas(req: map<string, Json>): Option<int> {
    if "replicas" in req && req["replicas"].Float? then Some(Int32(Truncate(req["replicas"].x))) else None
  }

  /** The edit does what was asked and nothing else. */
  ghost predicate IsEdit(before: Agent, req: map<string, Json>, after: Agent) {
    && SameAgent(before, after)
    && (forall t :: TextOf(after, t) == AskedText(req, t).Or(TextOf(before, t)))
    && (forall l :: ListOf(after, l) == Overlay(AskedList(req, l), ListOf(before, l)))
    && after.replicas == AskedReplicas(req).Or(before.replicas)
  }

  function TextsEdited(a: Agent, req: map<string, Json>): Agent {
    a.(modelType := AskedText(req, ModelType).Or(a.modelType), modelId := AskedText(req, ModelId).Or(a.modelId),
       systemPrompt := AskedText(req, SystemPrompt).Or(a.systemPrompt),
       channel := AskedText(req, Channel).Or(a.channel),
       strategy := AskedText(req, Strategy).Or(a.strategy), storage := AskedText(req, Storage).Or(a.storage),
       image := AskedText(req, Image).Or(a.image), promptRef := AskedText(req, PromptRef).Or(a.promptRef))
  }

  lemma TextsEditedAsAsked(a: Agent, req: map<string, Json>)
    ensures var after := TextsEdited(a, req);
            && SameAgent(a, after) && a.replicas == after.replicas
            && (forall t :: TextOf(after, t) == AskedText(req, t).Or(TextOf(a, t)))
            && (forall l :: ListOf(after, l) == ListOf(a, l))
  {
    forall t ensures TextOf(TextsEdited(a, req), t) == AskedText(req, t).Or(TextOf(a, t)) {
    }
  }

  method ApplyTexts(agent: Agent, req: map<string, Json>) returns (a: Agent)
    ensures a == TextsEdited(agent, req)
  {
    a := agent;
    a := a.(modelType := StringAt(req, "modelType").Or(a.modelType));
    a := a.(modelId := StringAt(req, "modelId").Or(a.modelId));
    a := a.(systemPrompt := AnyString(req, "systemPrompt").Or(a.systemPrompt));
    a := a.(channel := StringAt(req, "channel").Or(a.channel));
    a := a.(strategy := StringAt(req, "strategy").Or(a.strategy));
    a := a.(storage := StringAt(req, "storage").Or(a.storage));
    a := a.(image := StringAt(req, "image").Or(a.image));
    a := a.(promptRef := AnyString(req, "promptRef").Or(a.promptRef));
  }

  method ApplyLists(agent: Agent, req: map<string, Json>) returns (a: Agent)
    ensures SameAgent(agent, a) && a.replicas == agent.replicas && forall t :: TextOf(a, t) == TextOf(agent, t)
    ensures forall l :: ListOf(a, l) == Overlay(AskedList(req, l), ListOf(agent, l))
  {
    a := agent;
    var tools, skills, bases := AskedList(req, Tools), AskedList(req, Skills), AskedList(req, KnowledgeBases);
    if tools.Some? { a := a.(tools := tools); }
    if skills.Some? { a := a.(skills := skills); }
    if bases.Some? { a := a.(knowledgeBases := bases); }
  }

  method ApplyConfigToAgent(agent: Agent, req: map<string, Json>) returns (a: Agent)
    ensures IsEdit(agent, req, a)
  {
    a := ApplyTexts(agent, req);
    TextsEditedAsAsked(agent, req);
    if "replicas" in req && req["replicas"].Float? { a := a.(replicas := Int32(Truncate(req["replicas"].x))); }
    a := ApplyLists(a, req);
  }

  /** A text asked for and not empty. */
  function Filled(req: map<string, Json>, key: string, before: string): string {
    if key in req && req[key].Str? && req[key].s != "" then req[key].s else before
  }

  /** A text asked for, even an empty one. */
  function Replaced(req: map<string, Json>, key: string, before: string): string {
    if key in req && req[key].Str? then req[key].s else before
  }

  lemma EditedTexts(before: Agent, req: map<string, Json>, after: Agent)
    requires IsEdit(before, req, after)
    ensures after.modelType == Filled(req, "modelType", before.modelType)
    ensures after.modelId == Filled(req, "modelId", before.modelId)
    ensures after.channel == Filled(req, "channel", before.channel)
    ensures after.strategy == Filled(req, "strategy", before.strategy)
    ensures after.storage == Filled(req, "storage", before.storage)
    ensures after.image == Filled(req, "image", before.image)
    ensures after.systemPrompt == Replaced(req, "systemPrompt", before.systemPrompt)
    ensures after.promptRef == Replaced(req, "promptRef", before.promptRef)
  {
    assert TextOf(after, ModelType) == AskedText(req, ModelType).Or(TextOf(before, ModelType));
    assert TextOf(after, ModelId) == AskedText(req, ModelId).Or(TextOf(before, ModelId));
    assert TextOf(after, Channel) == AskedText(req, Channel).Or(TextOf(before, Channel));
    assert TextOf(after, Strategy) == AskedText(req, Strategy).Or(TextOf(before, Strategy));
    assert TextOf(after, Storage) == AskedText(req, Storage).Or(TextOf(before, Storage));
    assert TextOf(after, Image) == AskedText(req, Image).Or(TextOf(before, Image));
    assert TextOf(after, SystemPrompt) == AskedText(req, SystemPrompt).Or(TextOf(before, SystemPrompt));
    assert TextOf(after, PromptRef) == AskedText(req, PromptRef).Or(TextOf(before, PromptRef));
  }

  /** The list a request asks for under this key; what is not a string in it becomes an empty one. */
  ghost predicate IsAsked(req: map<string, Json>, key: string, before: Option<seq<string>>, after: Option<seq<string>>)
  {
    if key in req && req[key].Arr? then
      && after.Some? && |after.value| == |req[key].items|
      && forall i :: 0 <= i < |after.value| ==>
           after.value[i] == if req[key].items[i].Str? then req[key].items[i].s else ""
    else after == before
  }

  lemma EditedLists(before: Agent, req: map<string, Json>, after: Agent)
    requires IsEdit(before, req, after)
    ensures IsAsked(req, "tools", before.tools, after.tools) && IsAsked(req, "skills", before.skills, after.skills)
    ensures IsAsked(req, "knowledgeBases", before.knowledgeBases, after.knowledgeBases)
    ensures "replicas" in req && req["replicas"].Float? ==> after.replicas == Int32(Truncate(req["replicas"].x))
    ensures !("replicas" in req && req["replicas"].Float?) ==> after.replicas == before.replicas
  {
    assert ListOf(after, Tools) == Overlay(AskedList(req, Tools), ListOf(before, Tools));
    assert ListOf(after, Skills) == Overlay(AskedList(req, Skills), ListOf(before, Skills));
    assert ListOf(after, KnowledgeBases) == Overlay(AskedList(req, KnowledgeBases), ListOf(before, KnowledgeBases));
  }

  // ---------------------------------------------------------------- the overlay

  /** What a resource says about the number of replicas, if anything. */
  function SaidReplicas(spec: map<string, Json>): Option<int> {
    if "replicas" in spec && spec["replicas"].Int? then Some(Int32(spec["replicas"].i)) else None
  }

  /** The overlay: the seven texts are the resource's even when it does not have them, the others
      only when it speaks about them, and the prompt reference never. */
  lemma EnrichedSettings(a: Agent, spec: map<string, Json>, render: Renderer)
    ensures var after := Enriched(a, Obj(spec), render);
            && SameAgent(a, after)
            && (forall t :: TextOf(after, t) ==
                              if t == PromptRef then a.promptRef else FieldText(spec, TextKey(t), render))
            && (forall l :: ListOf(after, l) == Overlay(FieldList(spec, ListKey(l), render), ListOf(a, l)))
            && after.replicas == SaidReplicas(spec).Or(a.replicas)
  {
  }

  /** The texts of the overlay, one by one. */
  lemma EnrichedTexts(a: Agent, spec: map<string, Json>, render: Renderer)
    ensures var after := Enriched(a, Obj(spec), render);
            && after.modelType == FieldText(spec, "modelType", render)
            && after.modelId == FieldText(spec, "modelId", render)
            && after.systemPrompt == FieldText(spec, "systemPrompt", render)
            && after.channel == FieldText(spec, "channel", render)
            && after.strategy == FieldText(spec, "strategy", render)
            && after.storage == FieldText(spec, "storage", render)
            && after.image == FieldText(spec, "image", render)
            && after.promptRef == a.promptRef && SameAgent(a, after)
            && after.tools == Overlay(FieldList(spec, "tools", render), a.tools)
            && after.skills == Overlay(FieldList(spec, "skills", render), a.skills)
            && after.knowledgeBases == Overlay(FieldList(spec, "knowledgeBases", render), a.knowledgeBases)
  {
  }

  /** Overlaying leaves an agent as it is exactly when the resource holds its seven texts and, of
      replicas and the lists, says the same or nothing. */
  lemma OverlayKeepsExactlyWhen(a: Agent, spec: map<string, Json>, render: Renderer)
    ensures Enriched(a, Obj(spec), render) == a <==>
              && (forall t :: t != PromptRef ==> FieldText(spec, TextKey(t), render) == TextOf(a, t))
              && (forall l :: Overlay(FieldList(spec, ListKey(l), render), ListOf(a, l)) == ListOf(a, l))
              && SaidReplicas(spec).Or(a.replicas) == a.replicas
  {
    EnrichedSettings(a, spec, render);
    SettingsMakeTheAgent(Enriched(a, Obj(spec), render), a);
  }

  // ---------------------------------------------------------------- an edit between two overlays

  /** The part of a request that the resource does not speak about. */
  function Surviving(req: map<string, Json>, spec: map<string, Json>): map<string, Json> {
    map key | key in req && (key == "promptRef" || (key == "replicas" && SaidReplicas(spec).None?)
                             || (key in {"tools", "skills", "knowledgeBases"} && !(key in spec && spec[key].Arr?))) ::
      req[key]
  }

  lemma SurvivingSettings(req: map<string, Json>, spec: map<string, Json>, render: Renderer)
    ensures forall t :: AskedText(Surviving(req, spec), t) == if t == PromptRef then AskedText(req, t) else None
    ensures forall l :: AskedList(Surviving(req, spec), l) ==
                          if FieldList(spec, ListKey(l), render).Some? then None else AskedList(req, l)
    ensures AskedReplicas(Surviving(req, spec)) == if SaidReplicas(spec).Some? then None else AskedReplicas(req)
  {
  }

  /** The second overlay undoes the edit, all but the prompt reference and what the resource is
      silent about. */
  lemma OverlayUndoesTheEdit(a: Agent, req: map<string, Json>, spec: map<string, Json>, edited: Agent, render: Renderer)
    requires IsEdit(Enriched(a, Obj(spec), render), req, edited)
    ensures IsEdit(Enriched(a, Obj(spec), render), Surviving(req, spec), Enriched(edited, Obj(spec), render))
  {
    var before, after := Enriched(a, Obj(spec), render), Enriched(edited, Obj(spec), render);
    EnrichedSettings(a, spec, render);
    EnrichedSettings(edited, spec, render);
    SurvivingSettings(req, spec, render);
    forall t ensures TextOf(after, t) == AskedText(Surviving(req, spec), t).Or(TextOf(before, t)) {
    }
    forall l ensures ListOf(after, l) == Overlay(AskedList(Surviving(req, spec), l), ListOf(before, l)) {
    }
  }

  /** So it is kept exactly when the request asks for nothing but what the resource says already. */
  lemma EditIsKeptExactlyWhen(a: Agent, req: map<string, Json>, spec: map<string, Json>, edited: Agent,
                              render: Renderer)
    requires IsEdit(Enriched(a, Obj(spec), render), req, edited)
    ensures Enriched(edited, Obj(spec), render) == edited <==>
              && (forall t :: t != PromptRef && AskedText(req, t).Some? ==>
                    AskedText(req, t).value == FieldText(spec, TextKey(t), render))
              && (forall l :: AskedList(req, l).Some? && FieldList(spec, ListKey(l), render).Some? ==>
                    AskedList(req, l) == FieldList(spec, ListKey(l), render))
              && (AskedReplicas(req).Some? && SaidReplicas(spec).Some? ==> AskedReplicas(req) == SaidReplicas(spec))
  {
    EnrichedSettings(a, spec, render);
    OverlayKeepsExactlyWhen(edited, spec, render);
  }

  // ---------------------------------------------------------------- the release

  /** What a release writes for a text setting: its own text, or what stands in for an empty one.
      The configuration's storage comes before the agent's. */
  function ReleasedText(cfg: map<string, Json>, t: TextSetting, text: string): string {
    match t
    case Channel => Coalesce(text, "rest")
    case Strategy => Coalesce(text, "agent-react")
    case ModelType => Coalesce(text, "ollama")
    case SystemPrompt => Coalesce(text, StringAt(cfg, "system_prompt").Or(""))
    case Storage => Coalesce(StringAt(cfg, "storage").Or(text), "memory")
    case Image => Coalesce(text, "ghcr.io/recif-platform/corail:latest")
    case ModelId => text
    case PromptRef => text
  }

  function ConfigKey(l: ListSetting): string {
    match l
    case Tools => "tools"
    case Skills => "skills"
    case KnowledgeBases => "knowledge_bases"
  }

  function ReleasedList(cfg: map<string, Json>, l: ListSetting, list: Option<seq<string>>,
                        render: Renderer): seq<string>
  {
    list.Or(ExtractStrings(cfg, ConfigKey(l), render))
  }

  function ReleasedReplicas(n: int): int { if n > 1 then n else 1 }

  function TextIn(r: Artifact, t: TextSetting): string {
    match t
    case Channel => r.runtime.channel
    case Strategy => r.runtime.strategy
    case ModelType => r.agent.provider
    case ModelId => r.agent.modelId
    case SystemPrompt => r.agent.systemPrompt
    case Storage => r.agent.memoryBackend
    case Image => r.runtime.image
    case PromptRef => r.agent.promptRef
  }

  function ListIn(r: Artifact, l: ListSetting): seq<string> {
    match l
    case Tools => r.agent.tools
    case Skills => r.agent.skills
    case KnowledgeBases => r.agent.knowledgeBases
  }

  lemma ReleaseHoldsTheText(slug: string, version: int, changelog: string, a: Agent, now: string, render: Renderer,
                            t: TextSetting)
    ensures TextIn(BuildArtifact(slug, version, changelog, a, now, render), t) ==
              ReleasedText(a.config, t, TextOf(a, t))
  {
  }

  lemma ReleaseHoldsTheList(slug: string, version: int, changelog: string, a: Agent, now: string, render: Renderer,
                            l: ListSetting)
    ensures ListIn(BuildArtifact(slug, version, changelog, a, now, render), l) ==
              ReleasedList(a.config, l, ListOf(a, l), render)
  {
  }

  /** What a release holds of an agent, setting by setting. */
  lemma ReleaseHoldsTheSettings(slug: string, version: int, changelog: string, a: Agent, now: string, render: Renderer)
    ensures var r := BuildArtifact(slug, version, changelog, a, now, render);
            && (forall t :: TextIn(r, t) == ReleasedText(a.config, t, TextOf(a, t)))
            && (forall l :: ListIn(r, l) == ReleasedList(a.config, l, ListOf(a, l), render))
            && r.runtime.replicas == ReleasedReplicas(a.replicas)
  {
    var r := BuildArtifact(slug, version, changelog, a, now, render);
    forall t ensures TextIn(r, t) == ReleasedText(a.config, t, TextOf(a, t)) {
      ReleaseHoldsTheText(slug, version, changelog, a, now, render, t);
    }
    forall l ensures ListIn(r, l) == ReleasedList(a.config, l, ListOf(a, l), render) {
      ReleaseHoldsTheList(slug, version, changelog, a, now, render, l);
    }
  }

  /** Releases that agree on the settings are one release, if what else they hold is the same. */
  lemma SettingsMakeTheRelease(r: Artifact, q: Artifact)
    requires r.metadata == q.metadata && r.governance == q.governance && r.deployment == q.deployment
    requires (forall t :: TextIn(r, t) == TextIn(q, t)) && (forall l :: ListIn(r, l) == ListIn(q, l))
    requires r.runtime.replicas == q.runtime.replicas
    ensures r == q
  {
    assert TextIn(r, Channel) == TextIn(q, Channel) && TextIn(r, Strategy) == TextIn(q, Strategy);
    assert TextIn(r, ModelType) == TextIn(q, ModelType) && TextIn(r, ModelId) == TextIn(q, ModelId);
    assert TextIn(r, SystemPrompt) == TextIn(q, SystemPrompt) && TextIn(r, Storage) == TextIn(q, Storage);
    assert TextIn(r, Image) == TextIn(q, Image) && TextIn(r, PromptRef) == TextIn(q, PromptRef);
    assert ListIn(r, Tools) == ListIn(q, Tools) && ListIn(r, Skills) == ListIn(q, Skills);
    assert ListIn(r, KnowledgeBases) == ListIn(q, KnowledgeBases);
  }

  /** Two versions of an agent have the same release exactly when each setting is written the same. */
  lemma ReleasesAreEqualExactlyWhen(slug: string, version: int, changelog: string, a: Agent, b: Agent, now: string,
                                    render: Renderer)
    requires SameAgent(a, b)
    ensures var r := BuildArtifact(slug, version, changelog, a, now, render);
            var q := BuildArtifact(slug, version, changelog, b, now, render);
            r == q <==> ReleasedAlike(a, b, render)
  {
    var r := BuildArtifact(slug, version, changelog, a, now, render);
    var q := BuildArtifact(slug, version, changelog, b, now, render);
    ReleaseHoldsTheSettings(slug, version, changelog, a, now, render);
    ReleaseHoldsTheSettings(slug, version, changelog, b, now, render);
    if ReleasedAlike(a, b, render) {
      SettingsMakeTheRelease(r, q);
    }
    if r == q {
      forall t ensures ReleasedText(a.config, t, TextOf(a, t)) == ReleasedText(b.config, t, TextOf(b, t)) {
        assert TextIn(r, t) == TextIn(q, t);
      }
      forall l
        ensures ReleasedList(a.config, l, ListOf(a, l), render) == ReleasedList(b.config, l, ListOf(b, l), render)
      {
        assert ListIn(r, l) == ListIn(q, l);
      }
    }
  }

  ghost predicate ReleasedAlike(a: Agent, b: Agent, render: Renderer) {
    && (forall t :: ReleasedText(a.config, t, TextOf(a, t)) == ReleasedText(b.config, t, TextOf(b, t)))
    && (forall l :: ReleasedList(a.config, l, ListOf(a, l), render) == ReleasedList(b.config, l, ListOf(b, l), render))
    && ReleasedReplicas(a.replicas) == ReleasedReplicas(b.replicas)
  }

  /** An agent about to be released is overlaid first: its settings reach the release exactly when no
      resource is found, or the one found would write the same release. */
  lemma SettingsReachTheReleaseExactlyWhen(slug: string, version: int, changelog: string, e: Agent, s: Snapshot,
                                           list: Fate, gets: Fates, now: string, render: Renderer)
    ensures var crd := Found(s, e, list, gets, render);
            var released := BuildArtifact(slug, version, changelog, EnrichedBy(s, e, crd, render), now, render);
            released == BuildArtifact(slug, version, changelog, e, now, render) <==>
              (crd.Some? && crd.value in s.specs && s.specs[crd.value].Obj? ==>
                 WritesTheSame(s.specs[crd.value].fields, e, render))
  {
    var crd := Found(s, e, list, gets, render);
    if crd.Some? && crd.value in s.specs && s.specs[crd.value].Obj? {
      OverlayWritesTheSame(slug, version, changelog, e, s.specs[crd.value].fields, now, render);
    }
  }

  /** The resource would have a release write what the agent's own settings would. */
  ghost predicate WritesTheSame(spec: map<string, Json>, e: Agent, render: Renderer) {
    && (forall t :: t != PromptRef ==>
          ReleasedText(e.config, t, FieldText(spec, TextKey(t), render)) == ReleasedText(e.config, t, TextOf(e, t)))
    && (forall l :: FieldList(spec, ListKey(l), render).Some? ==>
          FieldList(spec, ListKey(l), render).value == ReleasedList(e.config, l, ListOf(e, l), render))
    && (SaidReplicas(spec).Some? ==> ReleasedReplicas(SaidReplicas(spec).value) == ReleasedReplicas(e.replicas))
  }

  lemma SameAgentOverlaid(e: Agent, spec: map<string, Json>, render: Renderer)
    ensures SameAgent(Enriched(e, Obj(spec), render), e)
  {
  }

  lemma OverlaidAlike(e: Agent, spec: map<string, Json>, render: Renderer)
    ensures ReleasedAlike(Enriched(e, Obj(spec), render), e, render) <==> WritesTheSame(spec, e, render)
  {
    EnrichedSettings(e, spec, render);
    ListsAlike(e, spec, render);
  }

  lemma ListsAlike(e: Agent, spec: map<string, Json>, render: Renderer)
    ensures forall l :: var said := FieldList(spec, ListKey(l), render);
              ReleasedList(e.config, l, Overlay(said, ListOf(e, l)), render) ==
                if said.Some? then said.value else ReleasedList(e.config, l, ListOf(e, l), render)
  {
  }

  lemma OverlayWritesTheSame(slug: string, version: int, changelog: string, e: Agent, spec: map<string, Json>,
                             now: string, render: Renderer)
    ensures var released := BuildArtifact(slug, version, changelog, Enriched(e, Obj(spec), render), now, render);
            released == BuildArtifact(slug, version, changelog, e, now, render) <==> WritesTheSame(spec, e, render)
  {
    OverlaidAlike(e, spec, render);
    SameAgentOverlaid(e, spec, render);
    ReleasesAreEqualExactlyWhen(slug, version, changelog, Enriched(e, Obj(spec), render), e, now, render);
  }

  /** Of each setting the request asks for, the release is to be written like the resource's own,
      or the resource does not speak about it. */
  ghost predicate AsksForTheSame(cfg: map<string, Json>, req: map<string, Json>, spec: map<string, Json>,
                                 render: Renderer)
  {
    && (forall t :: t != PromptRef && AskedText(req, t).Some? ==>
          ReleasedText(cfg, t, FieldText(spec, TextKey(t), render)) == ReleasedText(cfg, t, AskedText(req, t).value))
    && (forall l :: AskedList(req, l).Some? && FieldList(spec, ListKey(l), render).Some? ==>
          AskedList(req, l) == FieldList(spec, ListKey(l), render))
    && (AskedReplicas(req).Some? && SaidReplicas(spec).Some? ==>
          ReleasedReplicas(SaidReplicas(spec).value) == ReleasedReplicas(AskedReplicas(req).value))
  }

  lemma EditWritesTheSame(a: Agent, req: map<string, Json>, spec: map<string, Json>, edited: Agent, render: Renderer)
    requires IsEdit(Enriched(a, Obj(spec), render), req, edited)
    ensures WritesTheSame(spec, edited, render) <==> AsksForTheSame(a.config, req, spec, render)
  {
    EnrichedSettings(a, spec, render);
  }

  /** An edit of the agent in force is released exactly when it asks for what would be written anyway,
      or for what the resource does not speak about. */
  lemma EditIsReleasedExactlyWhen(slug: string, version: int, changelog: string, a: Agent, req: map<string, Json>,
                                  spec: map<string, Json>, edited: Agent, now: string, render: Renderer)
    requires IsEdit(Enriched(a, Obj(spec), render), req, edited)
    ensures var released := BuildArtifact(slug, version, changelog, Enriched(edited, Obj(spec), render), now, render);
            released == BuildArtifact(slug, version, changelog, edited, now, render) <==>
              AsksForTheSame(a.config, req, spec, render)
  {
    EditWritesTheSame(a, req, spec, edited, render);
    OverlayWritesTheSame(slug, version, changelog, edited, spec, now, render);
  }

  // ---------------------------------------------------------------- the requests

  /** The agent with the settings in force in the cluster, if there is one. */
  function InForce(cluster: Option<Snapshot>, a: Agent, list: Fate, gets: Fates, render: Renderer): Agent {
    if cluster.None? then a else EnrichedBy(cluster.value, a, Found(cluster.value, a, list, gets, render), render)
  }

  method Enrich(cluster: Option<Snapshot>, agent: Agent, list: Fate, gets: Fates, render: Renderer) returns (a: Agent)
    ensures a == InForce(cluster, agent, list, gets, render)
  {
    a := agent;
    if cluster.Some? {
      var crd := FindCRD(cluster.value, agent, list, gets, render);
      if crd.Some? && crd.value in cluster.value.specs {
        a := EnrichFromCRD(agent, cluster.value.specs[crd.value], render);
      }
    }
  }

  /** The agent put on the event: the stored one as in force, with the edit. Nothing is sent when
      the agent is not found or the body is not a JSON object; the cluster is not written. */
  method UpdateConfig(agent: Option<Agent>, body: Option<map<string, Json>>, cluster: Option<Snapshot>, list: Fate,
                      gets: Fates, render: Renderer)
      returns (sent: Option<Agent>)
    ensures sent.Some? == (agent.Some? && body.Some?)
    ensures sent.Some? ==> IsEdit(InForce(cluster, agent.value, list, gets, render), body.value, sent.value)
  {
    if agent.None? || body.None? { return None; }
    var inForce := Enrich(cluster, agent.value, list, gets, render);
    var edited := ApplyConfigToAgent(inForce, body.value);
    sent := Some(edited);
  }

  function ReleaseSlug(a: Agent): string { if a.slug != "" then a.slug else Slugify(a.name) }

  /** `sent` is the agent on the event, `stored` what the repository has under the id. */
  method CreateReleaseForAgent(handler: ReleaseLog.ReleaseHandler, changelog: string, sent: Option<Agent>,
                               stored: Option<Agent>, cluster: Option<Snapshot>, list: Fate, gets: Fates, now: string,
                               render: Renderer, listed: bool, store: Fate, net: ReleaseLog.Net)
      returns (version: Option<int>)
    requires handler.Valid()
    modifies handler, handler.git
    ensures handler.Valid()
    ensures sent.None? && stored.None? ==> version.None? && handler.log == old(handler.log)
    ensures sent.Some? || stored.Some? ==>
              var ag := if sent.Some? then sent.value else stored.value;
              var inForce := InForce(cluster, ag, list, gets, render);
              var built := BuildArtifact(ReleaseSlug(ag), 0, changelog, inForce, now, render);
              var dir := AgentDir(built.deployment.namespace, ReleaseSlug(ag));
              && handler.log == ReleaseLog.Next(old(handler.log), ReleaseLog.Create(dir, built, listed, store, net),
                                                handler.digest)
              && version == if store == Acknowledged && (ReleaseLog.RequiresEval(built) || net.read)
                            then Some(ReleaseLog.NextVersion(old(handler.git.files), dir, listed)) else None
  {
    var ag := if sent.Some? then sent else stored;
    if ag.None? { return None; }
    var slug := ReleaseSlug(ag.value);
    var inForce := Enrich(cluster, ag.value, list, gets, render);
    version := handler.Release(slug, changelog, inForce, now, render, listed, store, net);
  }

  /** Events without an agent id are dropped. */
  method OnConfigChanged(handler: ReleaseLog.ReleaseHandler, agentId: string, changelog: string, sent: Option<Agent>,
                         stored: Option<Agent>, cluster: Option<Snapshot>, list: Fate, gets: Fates, now: string,
                         render: Renderer, listed: bool, store: Fate, net: ReleaseLog.Net)
    requires handler.Valid()
    modifies handler, handler.git
    ensures handler.Valid()
    ensures agentId == "" || (sent.None? && stored.None?) ==> handler.log == old(handler.log)
    ensures agentId != "" && (sent.Some? || stored.Some?) ==>
              var ag := if sent.Some? then sent.value else stored.value;
              var inForce := InForce(cluster, ag, list, gets, render);
              var built := BuildArtifact(ReleaseSlug(ag), 0, changelog, inForce, now, render);
              var dir := AgentDir(built.deployment.namespace, ReleaseSlug(ag));
              handler.log == ReleaseLog.Next(old(handler.log), ReleaseLog.Create(dir, built, listed, store, net),
                                             handler.digest)
  {
    if agentId == "" { return; }
    var _ := CreateReleaseForAgent(handler, changelog, sent, stored, cluster, list, gets, now, render, listed, store,
                                   net);
  }
}
